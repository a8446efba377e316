/**
 The `classify` command as a pure function of its collaborators.

 The image decoder (open the bytes, convert to RGB) and the network (resize,
 normalise, forward pass) are passed in: `decode` answers `None` where the
 decoder raises, and `scores` gives the network's output vector for a decoded
 image, or `None` where preprocessing or the forward pass raises. The integer
 scores stand for the softmax probabilities as `torch.max` compares them: their
 order, ties included, is the order of the computed probabilities.
 */
module Pipeline {
  import opened Base
  import Lines
  import Tables
  import Handlers

  /** A file sent with the command, as the bytes its download yields. */
  datatype Attachment = Attachment(content: seq<byte>)

  /** What one `classify` invocation ends in. */
  datatype Outcome =
    | NoAttachment
    | BadImage
    | Prediction(index: nat, name: string, usage: string)
      /** The forward pass or the label lookup raised; nothing is sent. */
    | InferenceFailure

  const AttachPrompt: string := "Please attach an image for classification."
  // Written in two pieces so that the verifier can read the characters of each.
  const OpenError: string := "Error opening image. " + "Please try again with a valid image file."

  /** An index of a largest score; which one of several equal maxima is left unspecified. */
  ghost predicate IsArgMax(scores: seq<int>, k: int)
  {
    0 <= k < |scores| && forall j :: 0 <= j < |scores| ==> scores[j] <= scores[k]
  }

  /** The position of a largest score, as `torch.max` reports it. */
  function ArgMax(scores: seq<int>): (k: nat)
    requires |scores| > 0
    ensures IsArgMax(scores, k)
  {
    if |scores| == 1 then 0
    else
      var k := ArgMax(scores[..|scores| - 1]);
      if scores[|scores| - 1] > scores[k] then |scores| - 1 else k
  }

  /** `p` is a prediction read off `scores` and the label vocabulary `classNames`. */
  ghost predicate Predicts(p: Outcome, scores: seq<int>, classNames: seq<string>)
    requires p.Prediction?
  {
    && IsArgMax(scores, p.index)
    && p.index < |classNames|
    && p.name == classNames[p.index]
    && p.usage == Handlers.UsageOf(p.name)
  }

  /**
   The `classify` command: prompt when nothing is attached, decode only the
   first attachment, report a decoding failure without running the network,
   otherwise name the best-scoring label and its usage level.
   */
  function Classify<Image>(attachments: seq<Attachment>, decode: seq<byte> -> Option<Image>,
                           scores: Image -> Option<seq<int>>, classNames: seq<string>): (r: Outcome)
    ensures r == NoAttachment <==> |attachments| == 0
    ensures r == BadImage <==> |attachments| > 0 && decode(attachments[0].content).None?
    ensures r.Prediction? || r.InferenceFailure? ==>
      |attachments| > 0 && decode(attachments[0].content).Some?
    ensures r.Prediction? ==>
      var out := scores(decode(attachments[0].content).value);
      out.Some? && Predicts(r, out.value, classNames)
    ensures r.InferenceFailure? ==>
      var out := scores(decode(attachments[0].content).value);
      out.None? || |out.value| == 0 || |out.value| > |classNames|
  {
    if |attachments| == 0 then NoAttachment
    else
      match decode(attachments[0].content)
      case None => BadImage
      case Some(image) =>
        match scores(image)
        case None => InferenceFailure
        case Some(out) =>
          // torch.max raises on an empty vector; indexing past the vocabulary raises too.
          if |out| == 0 then InferenceFailure
          else
            var k := ArgMax(out);
            if k < |classNames| then Prediction(k, classNames[k], Handlers.UsageOf(classNames[k]))
            else InferenceFailure
  }

  /** The three lines of a prediction reply; `confidence` is the formatted percentage. */
  function PredictionLines(name: string, confidence: string, usage: string): seq<string>
  {
    [ "🔍 **Prediction:** **" + name + "**",
      "📊 **Confidence:** **" + confidence + "**",
      "⚡ **Estimated Energy Usage:** **" + usage + "**" ]
  }

  /** The text sent for an outcome, if any; `confidence` is the formatted percentage. */
  function ReplyText(r: Outcome, confidence: string): (text: Option<string>)
    ensures text.None? <==> r.InferenceFailure?
    ensures r.Prediction? ==>
      text == Some(Lines.Join(PredictionLines(r.name, confidence, r.usage), Lines.NewLine))
  {
    match r
    case NoAttachment => Some(AttachPrompt)
    case BadImage => Some(OpenError)
    case InferenceFailure => None
    case Prediction(_, name, usage) =>
      var ls := PredictionLines(name, confidence, usage);
      var text := ls[0] + "\n" + ls[1] + "\n" + ls[2];
      assert ls[2..] == [ls[2]] && ls[1..][1..] == ls[2..];
      calc {
        Lines.Join(ls, Lines.NewLine);
        ls[0] + "\n" + Lines.Join(ls[1..], Lines.NewLine);
        ls[0] + "\n" + (ls[1] + "\n" + ls[2]);
        text;
      }
      Some(text)
  }

  /**
   A prediction reply shows as exactly its three lines when the label and the
   formatted confidence are single lines (usage levels always are).
   */
  lemma PredictionReplyLines(r: Outcome, confidence: string)
    requires r.Prediction? && r.usage == Handlers.UsageOf(r.name)
    requires Lines.NewLine !in r.name && Lines.NewLine !in confidence
    ensures Lines.Split(ReplyText(r, confidence).value, Lines.NewLine)
         == PredictionLines(r.name, confidence, r.usage)
  {
    var ls := PredictionLines(r.name, confidence, r.usage);
    assert Lines.NewLine !in Handlers.UnknownUsage;
    assert forall u :: u in Tables.UsageLevelNames ==> Lines.NewLine !in u;
    assert forall k :: 0 <= k < |ls| ==> Lines.NewLine !in ls[k];
    Lines.SplitJoin(ls, Lines.NewLine);
  }

  /** With nothing attached the prompt is sent, whatever the decoder and the network would do. */
  lemma NoAttachmentPrompts<Image>(decode1: seq<byte> -> Option<Image>, decode2: seq<byte> -> Option<Image>,
                                   scores1: Image -> Option<seq<int>>, scores2: Image -> Option<seq<int>>,
                                   classNames: seq<string>, confidence: string)
    ensures Classify([], decode1, scores1, classNames) == Classify([], decode2, scores2, classNames)
    ensures ReplyText(Classify([], decode1, scores1, classNames), confidence) == Some(AttachPrompt)
  {
  }

  /** Attachments after the first never influence the outcome. */
  lemma OnlyFirstAttachment<Image>(a: seq<Attachment>, b: seq<Attachment>, decode: seq<byte> -> Option<Image>,
                                   scores: Image -> Option<seq<int>>, classNames: seq<string>)
    requires |a| > 0 && |b| > 0 && a[0] == b[0]
    ensures Classify(a, decode, scores, classNames) == Classify(b, decode, scores, classNames)
  {
  }

  /** When the first attachment does not decode, the error is sent and the network is not consulted. */
  lemma BadImageSkipsNetwork<Image>(a: seq<Attachment>, decode: seq<byte> -> Option<Image>,
                                    scores1: Image -> Option<seq<int>>, scores2: Image -> Option<seq<int>>,
                                    classNames: seq<string>, confidence: string)
    requires |a| > 0 && decode(a[0].content).None?
    ensures Classify(a, decode, scores1, classNames) == Classify(a, decode, scores2, classNames)
    ensures ReplyText(Classify(a, decode, scores1, classNames), confidence) == Some(OpenError)
  {
  }

  /**
   When the network runs and its output layer is as wide as the label
   vocabulary (the model is built that way), a decoded image yields a prediction: a largest
   score's index, the label at that index and that label's usage level.
   */
  lemma MatchingVocabularyPredicts<Image>(a: seq<Attachment>, decode: seq<byte> -> Option<Image>,
                                          scores: Image -> Option<seq<int>>, classNames: seq<string>)
    requires |a| > 0 && decode(a[0].content).Some?
    requires scores(decode(a[0].content).value).Some?
    requires |scores(decode(a[0].content).value).value| == |classNames| > 0
    ensures Classify(a, decode, scores, classNames).Prediction?
    ensures Predicts(Classify(a, decode, scores, classNames), scores(decode(a[0].content).value).value, classNames)
  {
  }
}
