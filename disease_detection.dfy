/**
 * The disease-detection page: an image list capped at five (uploads append, removal by index),
 * the guards and state of an analysis run, the error record shown when the analysis fails, and
 * the reset. Reading files as data URLs is outside the model: uploads arrive as data-URL strings.
 */
module DiseaseDetection {
  import opened Wrappers
  import Gemini

  const MaxImages: nat := 5

  /** `[...prev, ...added].slice(0, 5)`. */
  function Appended(prev: seq<string>, added: seq<string>): (r: seq<string>)
    ensures |r| == if |prev| + |added| < MaxImages then |prev| + |added| else MaxImages
    ensures r == (prev + added)[..|r|]
  {
    var all := prev + added;
    if |all| <= MaxImages then all else all[..MaxImages]
  }

  /** Uploads land after the existing images, which stay in front in their order; once the list
      is full further uploads are dropped. */
  lemma AppendKeepsExisting(prev: seq<string>, added: seq<string>)
    requires |prev| <= MaxImages
    ensures |Appended(prev, added)| <= MaxImages
    ensures Appended(prev, added)[..|prev|] == prev
    ensures forall i :: |prev| <= i < |Appended(prev, added)| ==> Appended(prev, added)[i] == added[i - |prev|]
    ensures |prev| == MaxImages ==> Appended(prev, added) == prev
  {
    var r := Appended(prev, added);
    assert r[..|prev|] == (prev + added)[..|prev|];
  }

  /** `prev.filter((_, i) => i !== index)` over the suffix starting at `offset`. */
  function FilterIndex(s: seq<string>, index: int, offset: nat): (r: seq<string>)
    requires offset <= |s|
    ensures |r| == if offset <= index < |s| then |s| - offset - 1 else |s| - offset
    ensures forall j :: 0 <= j < |r| ==>
      r[j] == if offset <= index < |s| && offset + j >= index then s[offset + j + 1] else s[offset + j]
    decreases |s| - offset
  {
    if offset == |s| then []
    else if offset == index then FilterIndex(s, index, offset + 1)
    else [s[offset]] + FilterIndex(s, index, offset + 1)
  }

  /** `removeImage(index)`. */
  function Removed(s: seq<string>, index: int): (r: seq<string>)
    ensures 0 <= index < |s| ==> |r| == |s| - 1
    ensures 0 <= index < |s| ==> forall j :: 0 <= j < |r| ==> r[j] == if j < index then s[j] else s[j + 1]
    ensures !(0 <= index < |s|) ==> r == s
  {
    FilterIndex(s, index, 0)
  }

  /** Removal deletes exactly the indexed image: what remains is the list around it. */
  lemma RemovedIsSplice(s: seq<string>, index: int)
    requires 0 <= index < |s|
    ensures Removed(s, index) == s[..index] + s[index + 1..]
  {
  }

  /** The result shown when the analysis throws: one symptom line (the error's message, or the
      generic text when it has none), one treatment line, no preventive measures. */
  function ErrorRecord(message: string, t: string -> string): (r: Gemini.Analysis)
    ensures r.disease == t("analysis_error") && r.confidence == t("low")
    ensures |r.symptoms| == 1 && |r.treatments| == 1 && r.preventiveMeasures == []
    ensures message != "" ==> r.symptoms[0] == message
    ensures message == "" ==> r.symptoms[0] == t("something_went_wrong")
    ensures r.treatments[0] == t("check_internet")
  {
    Gemini.Analysis(
      t("analysis_error"), t("low"),
      [if message != "" then message else t("something_went_wrong")],
      [t("check_internet")], [])
  }

  /** What the page shows for an analysis outcome. */
  function Shown(outcome: Result<Gemini.Analysis, string>, t: string -> string): (r: Gemini.Analysis)
    ensures outcome.Success? ==> r == outcome.value
    ensures outcome.Failure? ==> r == ErrorRecord(outcome.error, t)
  {
    match outcome
    case Success(a) => a
    case Failure(e) => ErrorRecord(e, t)
  }

  class DiseasePage {
    var images: seq<string>
    var crop: string
    var symptoms: string
    var isAnalyzing: bool
    var analysisResult: Option<Gemini.Analysis>
    var isOnlineProp: bool
    var browserOnline: bool
    var language: string

    /** The image list never holds more than five images. */
    predicate Valid()
      reads this
    {
      |images| <= MaxImages
    }

    constructor(isOnlineProp: bool, browserOnline: bool, language: string)
      ensures Valid()
      ensures images == [] && crop == "" && symptoms == "" && !isAnalyzing && analysisResult.None?
      ensures this.isOnlineProp == isOnlineProp && this.browserOnline == browserOnline
      ensures this.language == language
    {
      images := [];
      crop := "";
      symptoms := "";
      isAnalyzing := false;
      analysisResult := None;
      this.isOnlineProp := isOnlineProp;
      this.browserOnline := browserOnline;
      this.language := language;
    }

    /** Online only when the page is told so and the browser agrees. */
    function EffectiveOnline(): (r: bool)
      reads this
      ensures r <==> isOnlineProp && browserOnline
    {
      isOnlineProp && browserOnline
    }

    /** The browser's `online` and `offline` events. */
    method SetBrowserOnline(online: bool)
      modifies this
      ensures browserOnline == online
      ensures images == old(images) && crop == old(crop) && symptoms == old(symptoms)
      ensures isAnalyzing == old(isAnalyzing) && analysisResult == old(analysisResult)
      ensures isOnlineProp == old(isOnlineProp) && language == old(language)
    {
      browserOnline := online;
    }

    /** `handleImageUpload`, once every file has been read. */
    method Upload(added: seq<string>)
      modifies this
      ensures Valid()
      ensures images == Appended(old(images), added)
      ensures crop == old(crop) && symptoms == old(symptoms)
      ensures isAnalyzing == old(isAnalyzing) && analysisResult == old(analysisResult)
      ensures isOnlineProp == old(isOnlineProp) && browserOnline == old(browserOnline) && language == old(language)
    {
      images := Appended(images, added);
    }

    /** `removeImage`. */
    method RemoveImage(index: int)
      requires Valid()
      modifies this
      ensures Valid()
      ensures images == Removed(old(images), index)
      ensures crop == old(crop) && symptoms == old(symptoms)
      ensures isAnalyzing == old(isAnalyzing) && analysisResult == old(analysisResult)
      ensures isOnlineProp == old(isOnlineProp) && browserOnline == old(browserOnline) && language == old(language)
    {
      images := Removed(images, index);
    }

    method SelectCrop(c: string)
      modifies this
      ensures crop == c
      ensures images == old(images) && symptoms == old(symptoms)
      ensures isAnalyzing == old(isAnalyzing) && analysisResult == old(analysisResult)
      ensures isOnlineProp == old(isOnlineProp) && browserOnline == old(browserOnline) && language == old(language)
    {
      crop := c;
    }

    method SetSymptoms(text: string)
      modifies this
      ensures symptoms == text
      ensures images == old(images) && crop == old(crop)
      ensures isAnalyzing == old(isAnalyzing) && analysisResult == old(analysisResult)
      ensures isOnlineProp == old(isOnlineProp) && browserOnline == old(browserOnline) && language == old(language)
    {
      symptoms := text;
    }

    /** The analyse button is enabled only with an image, a crop, and no analysis running. */
    function CanAnalyze(): (r: bool)
      reads this
      ensures r <==> |images| > 0 && crop != "" && !isAnalyzing
    {
      |images| > 0 && crop != "" && !isAnalyzing
    }

    /** The first half of `handleAnalyze`: without an image or a crop nothing happens; otherwise
        the analysis starts and the previous result is cleared. */
    method BeginAnalyze() returns (started: bool)
      modifies this
      ensures started <==> |old(images)| > 0 && old(crop) != ""
      ensures started ==> isAnalyzing && analysisResult.None?
      ensures !started ==> isAnalyzing == old(isAnalyzing) && analysisResult == old(analysisResult)
      ensures images == old(images) && crop == old(crop) && symptoms == old(symptoms)
      ensures isOnlineProp == old(isOnlineProp) && browserOnline == old(browserOnline) && language == old(language)
    {
      if |images| == 0 || crop == "" {
        return false;
      }
      isAnalyzing := true;
      analysisResult := None;
      started := true;
    }

    /** The second half: the outcome is shown and, on every path, the analysis ends. */
    method CompleteAnalyze(outcome: Result<Gemini.Analysis, string>, t: string -> string)
      modifies this
      ensures analysisResult == Some(Shown(outcome, t)) && !isAnalyzing
      ensures images == old(images) && crop == old(crop) && symptoms == old(symptoms)
      ensures isOnlineProp == old(isOnlineProp) && browserOnline == old(browserOnline) && language == old(language)
    {
      analysisResult := Some(Shown(outcome, t));
      isAnalyzing := false;
    }

    /** `handleAnalyze`, with the service's two possible responses and the JSON reader as inputs. */
    method Analyze(first: Gemini.Exchange, second: Gemini.Exchange,
                   parse: string -> Result<Gemini.Analysis, string>, t: string -> string)
      modifies this
      ensures |old(images)| == 0 || old(crop) == "" ==>
        isAnalyzing == old(isAnalyzing) && analysisResult == old(analysisResult)
      ensures |old(images)| > 0 && old(crop) != "" ==>
        && !isAnalyzing
        && analysisResult == Some(Shown(Gemini.AnalyzeDiseaseImages(
             images, crop, symptoms, language, first, second, parse), t))
      ensures images == old(images) && crop == old(crop) && symptoms == old(symptoms)
      ensures isOnlineProp == old(isOnlineProp) && browserOnline == old(browserOnline) && language == old(language)
    {
      var started := BeginAnalyze();
      if !started {
        return;
      }
      var outcome := Gemini.AnalyzeDiseaseImages(images, crop, symptoms, language, first, second, parse);
      CompleteAnalyze(outcome, t);
    }

    /** `handleReset`: images, crop, symptoms and result are cleared; the running flag is not
        touched. */
    method Reset()
      modifies this
      ensures Valid()
      ensures images == [] && crop == "" && symptoms == "" && analysisResult.None?
      ensures isAnalyzing == old(isAnalyzing)
      ensures isOnlineProp == old(isOnlineProp) && browserOnline == old(browserOnline) && language == old(language)
    {
      images := [];
      crop := "";
      symptoms := "";
      analysisResult := None;
    }
  }

  /** An image whose data URL has no colon before its first comma makes the request fail before
      anything is sent, and the page shows the error record with the thrown message. */
  lemma MalformedImageShowsError(images: seq<string>, i: nat, crop: string, symptoms: string, language: string,
                                 first: Gemini.Exchange, second: Gemini.Exchange,
                                 parse: string -> Result<Gemini.Analysis, string>, t: string -> string)
    requires i < |images| && Gemini.MimeType(images[i]).Failure?
    ensures Shown(Gemini.AnalyzeDiseaseImages(images, crop, symptoms, language, first, second, parse), t)
         == ErrorRecord(Gemini.ReadingUndefined("split"), t)
  {
  }
}
