/**
  The classifier worker, ml_service/scripts/predict.py: how it assembles its input,
  how `preprocess_text` cleans it, and which result dictionary each branch of
  `main` and `predict` prints. NLTK and the trained scikit-learn models are
  parameters.
*/
module Predict {
  import opened Wrappers
  import opened Strings
  import Js

  /** What Python's `str.isspace` accepts, and so what `\s`, `strip()` and `split()` treat as space. */
  predicate PyIsSpace(c: char)
  {
    || ('\t' <= c <= '\r')
    || ('\U{001C}' <= c <= ' ')
    || c == '\U{0085}' || c == '\U{00A0}' || c == '\U{1680}'
    || ('\U{2000}' <= c <= '\U{200A}')
    || c == '\U{2028}' || c == '\U{2029}' || c == '\U{202F}' || c == '\U{205F}' || c == '\U{3000}'
  }

  /** `s.strip()` */
  function PyStrip(s: string): string
  {
    Trim(s, PyIsSpace)
  }

  predicate IsAsciiLetter(c: char)
  {
    ('a' <= c <= 'z') || ('A' <= c <= 'Z')
  }

  function AsciiLower(c: char): (r: char)
    ensures 'A' <= c <= 'Z' ==> 'a' <= r <= 'z' && r as int == c as int + 32
    ensures !('A' <= c <= 'Z') ==> r == c
  {
    if 'A' <= c <= 'Z' then (c as int + 32) as char else c
  }

  /** `text.lower()` on the characters this model covers. */
  function Lower(s: string): (r: string)
    ensures |r| == |s|
    ensures forall i :: 0 <= i < |s| ==> r[i] == AsciiLower(s[i])
  {
    seq(|s|, i requires 0 <= i < |s| => AsciiLower(s[i]))
  }

  /** The characters `[^a-zA-Z\s]` does not match, which `re.sub` therefore keeps. */
  predicate KeptByFilter(c: char)
  {
    IsAsciiLetter(c) || PyIsSpace(c)
  }

  /**
    Lines 27-30: lowercase, then delete every character that is neither an ASCII
    letter nor whitespace. What is left is exactly the lowercase letters and the
    whitespace of the lowered text, in order.
  */
  function CleanText(text: string): (r: string)
    ensures forall i :: 0 <= i < |r| ==> ('a' <= r[i] <= 'z') || PyIsSpace(r[i])
    ensures IsSubsequence(r, Lower(text))
    ensures forall i :: 0 <= i < |text| && KeptByFilter(text[i]) ==> AsciiLower(text[i]) in r
  {
    var lowered := Lower(text);
    var r := Filter(lowered, KeptByFilter);
    FilterIsSubsequence(lowered, KeptByFilter);
    SubsequenceElements(r, lowered);
    assert forall i :: 0 <= i < |text| && KeptByFilter(text[i]) ==> KeptByFilter(lowered[i]);
    assert forall i :: 0 <= i < |r| ==> ('a' <= r[i] <= 'z') || PyIsSpace(r[i]) by {
      forall i | 0 <= i < |r|
        ensures ('a' <= r[i] <= 'z') || PyIsSpace(r[i])
      {
        assert r[i] in lowered;
        var j :| 0 <= j < |lowered| && lowered[j] == r[i];
        assert lowered[j] == AsciiLower(text[j]);
      }
    }
    r
  }

  /**
    The cleaned text holds each lowercase letter and each whitespace character of
    the lowered text exactly as often as it occurs there, and nothing else.
  */
  lemma CleanTextCounts(text: string)
    ensures forall x ::
              multiset(CleanText(text))[x] == if ('a' <= x <= 'z') || PyIsSpace(x) then multiset(Lower(text))[x] else 0
  {
    var lowered := Lower(text);
    FilterCounts(lowered, KeptByFilter);
    forall x | 'A' <= x <= 'Z'
      ensures multiset(lowered)[x] == 0
    {
      assert forall j :: 0 <= j < |lowered| ==> lowered[j] != x;
    }
  }

  /** The NLTK pieces `preprocess_text` calls: `word_tokenize`, the English stopword list, `lemmatize`. */
  datatype Nlp = Nlp(tokenize: string -> seq<string>, stopWords: set<string>, lemmatize: string -> string)

  /** Line 37: `[t for t in tokens if t not in stop_words]`. */
  function DropStopwords(tokens: seq<string>, stopWords: set<string>): (r: seq<string>)
    ensures forall i :: 0 <= i < |r| ==> r[i] !in stopWords
    ensures forall i :: 0 <= i < |tokens| && tokens[i] !in stopWords ==> tokens[i] in r
    ensures IsSubsequence(r, tokens)
  {
    if tokens == [] then []
    else
      var rest := DropStopwords(tokens[1..], stopWords);
      SubsequenceOfSuffix(rest, tokens, 1);
      if tokens[0] in stopWords then rest
      else
        assert ([tokens[0]] + rest)[1..] == rest;
        [tokens[0]] + rest
  }

  /** Every token that is not a stopword is kept as often as it occurs; stopwords are all gone. */
  lemma {:induction false} DropStopwordsCounts(tokens: seq<string>, stopWords: set<string>)
    ensures forall x ::
              multiset(DropStopwords(tokens, stopWords))[x] == if x in stopWords then 0 else multiset(tokens)[x]
  {
    if tokens != [] {
      DropStopwordsCounts(tokens[1..], stopWords);
      assert tokens == [tokens[0]] + tokens[1..];
    }
  }

  /** Lines 33-37: the tokens of the cleaned text that are not stopwords. */
  function ContentTokens(text: string, nlp: Nlp): seq<string>
  {
    DropStopwords(nlp.tokenize(CleanText(text)), nlp.stopWords)
  }

  /** Line 41, applied to each token. */
  function Lemmas(tokens: seq<string>, nlp: Nlp): (r: seq<string>)
    ensures |r| == |tokens|
    ensures forall i :: 0 <= i < |tokens| ==> r[i] == nlp.lemmatize(tokens[i])
  {
    seq(|tokens|, i requires 0 <= i < |tokens| => nlp.lemmatize(tokens[i]))
  }

  /** `preprocess_text(text)` (lines 24-43): the lemmas of the content tokens, joined by single spaces. */
  function PreprocessText(text: string, nlp: Nlp): string
  {
    Join(Lemmas(ContentTokens(text, nlp), nlp), " ")
  }

  /**
    The blank check of line 71: the preprocessed text strips to nothing exactly
    when every lemma is whitespace, for instance when every token was a stopword.
  */
  lemma BlankIffEveryLemmaBlank(text: string, nlp: Nlp)
    ensures var lemmas := Lemmas(ContentTokens(text, nlp), nlp);
      PyStrip(PreprocessText(text, nlp)) == "" <==> forall i :: 0 <= i < |lemmas| ==> AllSatisfy(lemmas[i], PyIsSpace)
  {
    JoinAllSatisfy(Lemmas(ContentTokens(text, nlp), nlp), " ", PyIsSpace);
  }

  /**
    Stopwords are removed before lemmatisation, so a lemma can itself be a
    stopword: with a lemmatizer that maps "was" to "wa" and a list that holds
    "wa", the output still contains it.
  */
  lemma StopwordAfterLemmatisation()
    ensures var nlp := Nlp(s => [s], {"wa"}, t => if t == "was" then "wa" else t);
      && PreprocessText("was", nlp) == "wa"
      && "wa" in nlp.stopWords
  {
    var nlp := Nlp(s => [s], {"wa"}, t => if t == "was" then "wa" else t);
    assert Lower("was") == "was";
    assert Filter("was", KeptByFilter) == "was" by {
      FilterKeepsAll("was", KeptByFilter);
    }
    assert CleanText("was") == "was";
    assert nlp.tokenize(CleanText("was")) == ["was"];
    assert ContentTokens("was", nlp) == ["was"];
  }

  /** What happens in the note field of a result dictionary. */
  datatype Note = NoNote | Warning(warning: string) | Error(error: string)

  /** A printed result: `risk_profile`, `confidence` and at most one of `warning`/`error`. */
  datatype Classification = Classification(risk_profile: string, confidence: real, note: Note)

  const FallbackProfile: string := "Balanced"
  const FallbackConfidence: real := 0.33
  const NoInput: string := "No input provided"
  const ModelsMissing: string := "Models not found. Please run train_model.py first."
  const TooShort: string := "Input too short or contained no meaningful content"

  function Fallback(note: Note): Classification
  {
    Classification(FallbackProfile, FallbackConfidence, note)
  }

  /** The class the trained model picks and its confidence rounded to two places. */
  datatype Prediction = Prediction(profile: string, confidence: real)

  /**
    The world `predict` runs in: whether the two model files exist, what
    `joblib.load` gives (a classifier, or the message of the exception), the
    message of an exception raised by the NLP pipeline (a missing NLTK resource),
    if any, and the NLP pieces themselves.
  */
  datatype Env = Env(
    classifierExists: bool,
    vectorizerExists: bool,
    load: Result<string -> Result<Prediction, string>, string>,
    nlpFailure: Option<string>,
    nlp: Nlp)

  /** `predict(text)` (lines 46-98). */
  function PredictText(text: string, env: Env): (r: Classification)
    ensures !env.classifierExists || !env.vectorizerExists ==> r == Fallback(Error(ModelsMissing))
    ensures env.classifierExists && env.vectorizerExists && env.load.Failure? ==> r == Fallback(Error(env.load.error))
    ensures r.note.NoNote? ==>
      && env.classifierExists && env.vectorizerExists && env.load.Success? && env.nlpFailure.None?
      && PyStrip(PreprocessText(text, env.nlp)) != ""
      && env.load.value(PreprocessText(text, env.nlp)) == Success(Prediction(r.risk_profile, r.confidence))
    ensures !r.note.NoNote? ==> r.risk_profile == FallbackProfile && r.confidence == FallbackConfidence
    ensures r.note.Warning? <==>
      && env.classifierExists && env.vectorizerExists && env.load.Success? && env.nlpFailure.None?
      && PyStrip(PreprocessText(text, env.nlp)) == ""
    ensures env.classifierExists && env.vectorizerExists && env.load.Success? && env.nlpFailure.Some? ==>
      r == Fallback(Error(env.nlpFailure.value))
    ensures (&& env.classifierExists && env.vectorizerExists && env.load.Success? && env.nlpFailure.None?
             && PyStrip(PreprocessText(text, env.nlp)) == "") ==>
      r == Fallback(Warning(TooShort))
    ensures (&& env.classifierExists && env.vectorizerExists && env.load.Success? && env.nlpFailure.None?
             && PyStrip(PreprocessText(text, env.nlp)) != "") ==>
      match env.load.value(PreprocessText(text, env.nlp))
      case Success(p) => r == Classification(p.profile, p.confidence, NoNote)
      case Failure(e) => r == Fallback(Error(e))
  {
    if !env.classifierExists || !env.vectorizerExists then Fallback(Error(ModelsMissing))
    else match env.load
      case Failure(e) => Fallback(Error(e))
      case Success(classify) =>
        if env.nlpFailure.Some? then Fallback(Error(env.nlpFailure.value))
        else
          var processed := PreprocessText(text, env.nlp);
          if PyStrip(processed) == "" then Fallback(Warning(TooShort))
          else match classify(processed)
            case Failure(e) => Fallback(Error(e))
            case Success(p) => Classification(p.profile, p.confidence, NoNote)
  }

  /** Lines 103-108: the arguments after the script name joined by spaces, else stripped stdin. */
  function InputText(argv: seq<string>, stdin: string): (r: string)
    ensures |argv| == 2 ==> r == argv[1]
    ensures |argv| <= 1 ==> r == PyStrip(stdin)
  {
    if |argv| > 1 then Join(argv[1..], " ") else PyStrip(stdin)
  }

  /** `main()` (lines 101-120): the dictionary the worker prints. */
  function Main(argv: seq<string>, stdin: string, env: Env): (r: Classification)
    ensures InputText(argv, stdin) == "" ==> r == Fallback(Warning(NoInput))
    ensures InputText(argv, stdin) != "" ==> r == PredictText(InputText(argv, stdin), env)
  {
    var text := InputText(argv, stdin);
    if text == "" then Fallback(Warning(NoInput)) else PredictText(text, env)
  }

  /**
    Every branch of the worker prints a dictionary with `risk_profile` and
    `confidence`; every branch that does not report a prediction prints the
    'Balanced' fallback at 0.33 with a warning or an error, and empty input never
    reaches the models.
  */
  lemma MainOutcomes(argv: seq<string>, stdin: string, env: Env, env': Env)
    ensures var r := Main(argv, stdin, env);
      r.note.NoNote? || (r.risk_profile == FallbackProfile && r.confidence == FallbackConfidence)
    ensures InputText(argv, stdin) == "" ==> Main(argv, stdin, env) == Main(argv, stdin, env')
    ensures var r := Main(argv, stdin, env);
      r.note.NoNote? ==> env.load.Success? && env.load.value(PreprocessText(InputText(argv, stdin), env.nlp)).Success?
  {
  }

  /** `json.dumps(result)` read back as a JavaScript value. */
  function ToJson(c: Classification): (v: Js.Value)
    ensures v.Obj? && "risk_profile" in v.fields && "confidence" in v.fields
    ensures v.fields["risk_profile"] == Js.Str(c.risk_profile) && v.fields["confidence"] == Js.Num(c.confidence)
    ensures v.fields.Keys <= {"risk_profile", "confidence", "warning", "error"}
    ensures c.note.Warning? <==> "warning" in v.fields
    ensures c.note.Error? <==> "error" in v.fields
    ensures c.note.Warning? ==> v.fields["warning"] == Js.Str(c.note.warning)
    ensures c.note.Error? ==> v.fields["error"] == Js.Str(c.note.error)
  {
    var base := map["risk_profile" := Js.Str(c.risk_profile), "confidence" := Js.Num(c.confidence)];
    match c.note
    case NoNote => Js.Obj(base)
    case Warning(w) => Js.Obj(base["warning" := Js.Str(w)])
    case Error(e) => Js.Obj(base["error" := Js.Str(e)])
  }
}
