# Eco-Friendly-Bot: request handling, in Dafny

This project models the request-handling core of Eco-Friendly-Bot. The bot is a chat bot
that classifies a photographed electronic device and reports that device's energy usage
level. It also answers two lookup commands with static eco information. Each command
handler is modelled as a pure function from its inputs to the reply it sends.

- `ascii.dfy` (module `Ascii`): Python's `str.lower` and `str.title` over ASCII letters.
  `title` follows the interpreter's rule: a letter is raised when the character before it
  is not cased, and lowered otherwise.
- `tables.dfy` (module `Tables`): the two read-only dictionaries, `usage_levels` and
  `electronics_info`, written as `map` literals, plus lemmas about the tables.
- `handlers.dfy` (module `Handlers`): the `info` and `howtouse` commands and the
  usage-level lookup `usage_levels.get(name.lower(), "Unknown")`.
- `pipeline.dfy` (module `Pipeline`): the decision structure of the `classify` command.
  It takes the image decoder and the network as function parameters. `decode` answers
  `None` where the decoder raises. `scores` answers `None` where preprocessing or the
  forward pass raises.
- `lines.dfy` (module `Lines`): `str.split("\n")` and its inverse. These are used to state
  which lines each reply shows.
- `base.dfy` (module `Base`): bytes and `Option`.

In the source, the network's output layer is sized from the label vocabulary. The model
takes the argmax over integer scores. These scores stand for the softmax probabilities
as `torch.max` compares them: their order, ties included, is the order of the computed
probabilities, not of the raw network outputs. When several scores tie for the maximum,
the contracts only say that the chosen index holds a maximal score. They never say which
of the tied indices is chosen.

The source has no guard around inference. An exception there ends the command without a
reply. The model keeps that gap as an explicit `InferenceFailure` outcome, for which
`ReplyText` gives no text. Three cases lead to it:

- the network raises;
- the output vector is empty, so `torch.max` raises;
- the index is past the end of the vocabulary, so `class_names[idx]` raises.

## Model

| member | source | states |
|---|---|---|
| Ascii.Lower | Bot.py:165 | the lowered string has the same length and holds, at every position, the lower-case form of the input's character there; it contains no capital |
| Ascii.LowerIdempotent | Bot.py:165 | lowering twice equals lowering once, and a string is unchanged by lowering exactly when it has no capital |
| Ascii.TitleFrom | Bot.py:169 | the left-to-right title-casing walk puts at each position the character the word rule prescribes: non-letters are kept, a letter after a cased character is lowered, any other letter is raised |
| Ascii.Title | Bot.py:184 | `title` is that walk started with "previous not cased": the first letter of every word is raised and the rest are lowered |
| Ascii.TitleIgnoresCase | Bot.py:169 | title-casing the lowered name gives the same text as title-casing the name as typed |
| Ascii.LowerTitle | Bot.py:184 | lowering the title-cased name gives back the lowered name, so the name shown in a reply leads back to the table key |
| Ascii.TitleKeepsNonLetters | Bot.py:169 | title-casing neither adds nor removes a non-letter such as a newline |
| Ascii.TitleWords | Bot.py:184 | a letter comes out upper-case exactly when it starts a word, and is otherwise the same letter |
| Tables.SameDevices | Bot.py:41-124 | both dictionaries are keyed by the same thirteen device names |
| Tables.KeysAreCanonical | Bot.py:41-124 | every key of both dictionaries is non-empty, fits on one line and has no capital letter, so a lowered argument can reach each one |
| Tables.UsageLevelsClosed | Bot.py:41-55 | every usage level is "Low usage", "Medium usage" or "High usage" |
| Tables.InfoFieldsNonEmpty | Bot.py:58-124 | every device record has text in its pros, cons and eco-tip fields |
| Handlers.InfoReply | Bot.py:168-173 | the reply for a found device consists of its four lines (title-cased header, pros, cons, eco tip, in that order) joined by newlines, and it never equals the apology |
| Handlers.Info | Bot.py:163-177 | `info` apologises exactly when the lowered argument is not a key; otherwise it sends the four-line record of that key |
| Handlers.TipReply | Bot.py:184 | a `howtouse` reply for a found device is never the apology, and for a lower-case key it reads as the fixed prefix, the title-cased key, the fixed separator and exactly the eco tip |
| Handlers.HowToUse | Bot.py:179-188 | `howtouse` apologises exactly when the lowered argument is not a key; otherwise it reads as the fixed prefix, the title-cased key, the fixed separator and exactly that key's eco tip |
| Handlers.UsageOf | Bot.py:155 | the usage level is one of the three table levels or "Unknown"; it is "Unknown" exactly when the lowered label is not a key, and is the table's level otherwise |
| Handlers.InfoCaseInsensitive | Bot.py:165-166 | `info` answers the same for an argument, for its lowered form and for its title-cased form |
| Handlers.HowToUseCaseInsensitive | Bot.py:181-182 | `howtouse` answers the same for an argument, for its lowered form and for its title-cased form |
| Handlers.UsageCaseInsensitive | Bot.py:155 | the usage lookup answers the same for a label, for its lowered form and for its title-cased form |
| Handlers.EveryDeviceAnswered | Bot.py:163-188 | every device in the info table gets an answer from `info` and `howtouse`, whether it is written lower-case or title-cased, and has a known usage level |
| Handlers.InfoReplyLines | Bot.py:168-173 | when the name and record are single lines, splitting the `info` reply at newlines gives back exactly the header, pros, cons and eco-tip lines |
| Handlers.InfoReadsBack | Bot.py:165-173 | a found device's `info` reply splits into its four lines, and the name in the header lowers back to the key |
| Handlers.TipReplyReadsBack | Bot.py:184 | the tip template filled in for a lower-case key reads as the fixed prefix, then the title-cased key (which lowers back to the key), then the fixed separator, then exactly the tip |
| Handlers.InfoSampleCase | Bot.py:165-166 | `info("LAPTOP")` equals `info("laptop")` |
| Handlers.InfoSampleHit | Bot.py:166-173 | `info("laptop")` is "**Laptop Info:**" followed by the laptop's pros line "Portable, versatile, energy-efficient compared to desktops.", then its cons and eco-tip lines |
| Handlers.SampleMiss | Bot.py:174-186 | for "toaster", `info` and `howtouse` send their fixed apologies and the usage lookup answers "Unknown" |
| Handlers.HowToUseSampleHit | Bot.py:181-184 | `howtouse("router")` wraps "Use energy-efficient routers and restart periodically." in the tip template, with the name "Router" |
| Handlers.UsageSampleHit | Bot.py:155 | the label "TV" is looked up as "tv" and reads "Medium usage" |
| Pipeline.ArgMax | Bot.py:151 | the reported index is inside the score vector and its score is at least every other score |
| Pipeline.Classify | Bot.py:131-161 | with no attachment the outcome is the prompt, and only then; a decoding failure of attachment 0 gives the image error, and only then; a prediction comes from a decoded attachment 0 and a network run, and names a largest-score index inside the vocabulary, the label at that index and its usage level; an inference failure happens only when the network raises, returns nothing or returns more scores than there are labels |
| Pipeline.ReplyText | Bot.py:157-161 | a reply is sent for every outcome except an inference failure; a prediction is sent as its three lines (label, confidence, usage) joined by newlines |
| Pipeline.PredictionReplyLines | Bot.py:157-161 | when the label and the confidence text are single lines, a prediction reply splits into exactly its three lines |
| Pipeline.NoAttachmentPrompts | Bot.py:133-135 | with no attachment the outcome depends neither on the decoder nor on the network, and the prompt is sent |
| Pipeline.OnlyFirstAttachment | Bot.py:137 | two attachment lists that share their first attachment give the same outcome |
| Pipeline.BadImageSkipsNetwork | Bot.py:140-144 | when attachment 0 does not decode, the outcome does not depend on the network, and the image error is sent |
| Pipeline.MatchingVocabularyPredicts | Bot.py:146-155 | when the network runs on the decoded image and returns as many scores as there are labels, the outcome is a prediction: an in-bounds index of a largest score, the label at that index, and that label's usage level |

## Left out

- The chat platform is left out: the client, intents, `on_ready`, `bot.run`, command
  dispatch and argument parsing. Sending a reply is modelled as returning its text.
  Fetching an attachment is modelled as the attachment already holding its bytes.
- When `info` or `howtouse` is called without an argument, the command framework rejects
  it before the handler runs. That path belongs to the framework and is not modelled.
- Loading the token from the environment and reading `labels.txt` (Bot.py:11-22) are left
  out. The label vocabulary is a parameter.
- The network is left out: building it, loading its weights, resizing to 224×224,
  normalisation, the forward pass and softmax (Bot.py:24-38, 146-151). These are
  floating-point numerics and a foreign library. They are replaced by the `scores`
  parameter, which gives the order of the computed probabilities. In float32, two
  different raw outputs can round or underflow to the same probability. So the index
  `torch.max` reports need not hold the largest raw output. The model does not relate
  the scores to the raw outputs.
- Image decoding and `.convert("RGB")` (Bot.py:141) are a foreign library call and are
  replaced by the `decode` parameter.
- The confidence value, and its formatting with `{confidence_score:.2%}`, are left out
  because that is float-to-string conversion. The formatted text is a parameter of
  `ReplyText`.
- Which of several equal maxima `torch.max` reports is left out, because the source does
  not fix it.
- The static replies (`helpme`, `ping`, `about`, `source`, `invite`, `support`,
  Bot.py:190-245) are left out. Each sends one constant string.
- Non-ASCII characters are left out. Python's `lower` and `title` also change cased
  letters outside ASCII. Here those characters are treated as uncased and copied
  unchanged.
- Handlers.InfoReadsBack: it assumes that the record's texts are single lines and does
  not prove it for the table. The verifier does not unfold string literals longer than
  about forty characters, so it cannot check newlines inside the long table texts.
  `Tables.InfoFieldsNonEmpty` proves only that those texts are non-empty.
- Pipeline.PredictionReplyLines: it assumes that the label and the confidence text are
  single lines. Labels come from stripped lines of a file, and the confidence is a
  formatted number, but neither is modelled.
