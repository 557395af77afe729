/** The application's session state (App.tsx): the five state fields and the
    handlers that update them. The asynchronous `handleGenerate` is split into
    a begin step (up to the `await`) and a complete step (after it), so other
    handlers may run in between, as they can in the browser. */
module App {
  import opened Wrappers
  import opened JsString
  import Gemini

  /** The two tool tabs; a record remembers which one produced it. */
  datatype Tab = Edit | Merch

  /** One finished generation, newest first in the history. */
  datatype GeneratedImage = GeneratedImage(
    id: string,
    original: string,
    result: string,
    prompt: string,
    timestamp: int,
    kind: Tab)

  datatype MerchProduct = MerchProduct(id: string, name: string, icon: string, description: string)

  /** The merchandise catalogue shown by the product grid. */
  const Products: seq<MerchProduct> := [
    MerchProduct("tshirt", "White T-Shirt", "shirt", "Classic fit cotton tee"),
    MerchProduct("mug", "Ceramic Mug", "mug", "11oz glossy white mug"),
    MerchProduct("tote", "Canvas Tote Bag", "bag", "Eco-friendly shopping bag"),
    MerchProduct("hoodie", "Black Hoodie", "shirt", "Premium heavy blend"),
    MerchProduct("cap", "Baseball Cap", "hat", "Embroidered style cap"),
    MerchProduct("notebook", "Spiral Notebook", "note", "Hardcover journal")
  ]

  const MerchPromptPrefix := "A high-quality, photorealistic product shot of a "
  const MerchPromptSuffix := " featuring the provided logo or design clearly visible on it. " +
                             "Professional studio lighting, commercial photography style."
  const FallbackErrorMessage := "Failed to generate image. Please try again."

  /** The prompt a product selection sends: a fixed template around the name. */
  function MerchPrompt(name: string): (r: string)
    ensures |r| == |MerchPromptPrefix| + |name| + |MerchPromptSuffix|
    ensures r[..|MerchPromptPrefix|] == MerchPromptPrefix
    ensures r[|r| - |MerchPromptSuffix|..] == MerchPromptSuffix
  {
    MerchPromptPrefix + name + MerchPromptSuffix
  }

  /** The product name sits between the fixed prefix and suffix, so it can be
      read back from the prompt and different names give different prompts. */
  lemma {:induction false} MerchPromptRecoversName(name: string)
    ensures var p := MerchPrompt(name);
            |p| == |MerchPromptPrefix| + |name| + |MerchPromptSuffix| &&
            p[..|MerchPromptPrefix|] == MerchPromptPrefix &&
            p[|MerchPromptPrefix|..|p| - |MerchPromptSuffix|] == name &&
            p[|p| - |MerchPromptSuffix|..] == MerchPromptSuffix
  {
    var p := MerchPrompt(name);
    assert p[|MerchPromptPrefix|..] == name + MerchPromptSuffix;
  }

  lemma {:induction false} MerchPromptInjective(a: string, b: string)
    requires MerchPrompt(a) == MerchPrompt(b)
    ensures a == b
  {
    MerchPromptRecoversName(a);
    MerchPromptRecoversName(b);
  }

  /** The six catalogue entries have distinct names, hence distinct prompts. */
  lemma {:induction false} CatalogPromptsDistinct(i: nat, j: nat)
    requires i < |Products| && j < |Products| && i != j
    ensures MerchPrompt(Products[i].name) != MerchPrompt(Products[j].name)
  {
    assert Products[i].name != Products[j].name;
    if MerchPrompt(Products[i].name) == MerchPrompt(Products[j].name) {
      MerchPromptInjective(Products[i].name, Products[j].name);
    }
  }

  /** `err.message || "Failed to generate image. Please try again."`: the
      message shown for a failed generation, never empty. */
  function ErrorText(e: Gemini.Thrown): (r: string)
    ensures r != ""
    ensures Truthy(e.message) ==> r == e.message.value
    ensures !Truthy(e.message) ==> r == FallbackErrorMessage
  {
    if Truthy(e.message) then e.message.value else FallbackErrorMessage
  }

  /** What the pending `handleGenerate` call captured before awaiting the
      service: the input image and the tab of the render it came from, and the
      prompt it was given. */
  datatype Pending = Pending(original: string, prompt: string, kind: Tab)

  predicate IsPngDataUri(s: string) {
    |s| > |Gemini.PngPrefix| && s[..|Gemini.PngPrefix|] == Gemini.PngPrefix
  }

  /** Every record was made from a non-empty input image and holds a PNG data URI. */
  ghost predicate RecordsValid(records: seq<GeneratedImage>) {
    forall k :: 0 <= k < |records| ==> records[k].original != "" && IsPngDataUri(records[k].result)
  }

  lemma PrependKeepsRecordsValid(record: GeneratedImage, records: seq<GeneratedImage>)
    requires record.original != "" && IsPngDataUri(record.result)
    requires RecordsValid(records)
    ensures RecordsValid([record] + records)
  {
    forall k | 0 <= k < |[record] + records|
      ensures ([record] + records)[k].original != "" && IsPngDataUri(([record] + records)[k].result)
    {
      if k > 0 {
        assert ([record] + records)[k] == records[k - 1];
      }
    }
  }

  class Session {
    var activeTab: Tab
    var inputImage: Option<string>
    var generatedImages: seq<GeneratedImage>
    var isProcessing: bool
    var error: Option<string>

    /** What every handler keeps: an error, when shown, is never empty, and
        every record was made from a non-empty input image and holds a PNG
        data URI returned by the service. */
    ghost predicate Valid()
      reads this
    {
      error != Some("") && RecordsValid(generatedImages)
    }

    /** The initial state: the merchandise tab, nothing uploaded, no history. */
    constructor ()
      ensures Valid()
      ensures activeTab == Merch && inputImage == None && generatedImages == []
      ensures !isProcessing && error == None
    {
      activeTab := Merch;
      inputImage := None;
      generatedImages := [];
      isProcessing := false;
      error := None;
    }

    /** handleImageUpload: the new image replaces the old one and the error is cleared. */
    method HandleImageUpload(image: string)
      requires Valid()
      modifies this
      ensures Valid()
      ensures inputImage == Some(image) && error == None
      ensures activeTab == old(activeTab) && generatedImages == old(generatedImages)
      ensures isProcessing == old(isProcessing)
    {
      inputImage := Some(image);
      error := None;
    }

    /** The Clear button: the image goes, history and error stay. */
    method ClearImage()
      requires Valid()
      modifies this
      ensures Valid()
      ensures inputImage == None
      ensures activeTab == old(activeTab) && generatedImages == old(generatedImages)
      ensures isProcessing == old(isProcessing) && error == old(error)
    {
      inputImage := None;
    }

    /** The tab buttons: only the active tab changes. */
    method SelectTab(tab: Tab)
      requires Valid()
      modifies this
      ensures Valid()
      ensures activeTab == tab
      ensures inputImage == old(inputImage) && generatedImages == old(generatedImages)
      ensures isProcessing == old(isProcessing) && error == old(error)
    {
      activeTab := tab;
    }

    /** handleGenerate up to the service call. Without a (non-empty) input image
        it does nothing at all; otherwise it raises the processing flag, clears
        the error and captures what the call needs. It does not look at the
        processing flag itself: only disabled controls keep a second generation
        from starting. */
    method BeginGenerate(prompt: string) returns (pending: Option<Pending>)
      requires Valid()
      modifies this
      ensures Valid()
      ensures !Truthy(old(inputImage)) ==> pending == None && unchanged(this)
      ensures Truthy(old(inputImage)) ==>
                pending == Some(Pending(old(inputImage).value, prompt, old(activeTab))) &&
                isProcessing && error == None &&
                activeTab == old(activeTab) && inputImage == old(inputImage) &&
                generatedImages == old(generatedImages)
      ensures pending.Some? ==> pending.value.original != ""
    {
      if !Truthy(inputImage) {
        return None;
      }
      isProcessing := true;
      error := None;
      pending := Some(Pending(inputImage.value, prompt, activeTab));
    }

    /** handleGenerate after the `await`, given what the call to the service
        wrapper settled to and the two readings of the clock (`Date.now()` is
        read once for the id and once for the timestamp). On success a new
        record goes in front of the history as it is now; on failure the
        error is set and the history is untouched; either way the processing
        flag drops. */
    method CompleteGenerate(pending: Pending, outcome: Result<string, Gemini.Thrown>,
                            idClock: nat, timestampClock: nat)
      requires Valid()
      requires pending.original != ""
      requires outcome.Success? ==> IsPngDataUri(outcome.value)
      modifies this
      ensures Valid()
      ensures outcome.Success? ==>
                generatedImages ==
                  [GeneratedImage(NumberToString(idClock), pending.original, outcome.value,
                                  pending.prompt, timestampClock, pending.kind)]
                  + old(generatedImages) &&
                error == old(error)
      ensures outcome.Failure? ==>
                generatedImages == old(generatedImages) && error == Some(ErrorText(outcome.error))
      ensures !isProcessing
      ensures activeTab == old(activeTab) && inputImage == old(inputImage)
    {
      match outcome {
        case Success(result) =>
          var record := GeneratedImage(NumberToString(idClock), pending.original, result,
                                       pending.prompt, timestampClock, pending.kind);
          PrependKeepsRecordsValid(record, generatedImages);
          generatedImages := [record] + generatedImages;
        case Failure(e) =>
          error := Some(ErrorText(e));
      }
      isProcessing := false;
    }

    /** handleGenerate run to completion with nothing in between. */
    method HandleGenerate(prompt: string, apiKey: Option<string>,
                          service: Gemini.Request -> Gemini.CallOutcome,
                          idClock: nat, timestampClock: nat)
      returns (outcome: Option<Result<string, Gemini.Thrown>>)
      requires Valid()
      modifies this
      ensures Valid()
      ensures !Truthy(old(inputImage)) ==> outcome == None && unchanged(this)
      ensures Truthy(old(inputImage)) ==>
                outcome == Some(Gemini.GenerateEditedImage(apiKey, old(inputImage).value, prompt, service)) &&
                !isProcessing && activeTab == old(activeTab) && inputImage == old(inputImage)
      ensures outcome.Some? && outcome.value.Success? ==>
                error == None &&
                generatedImages ==
                  [GeneratedImage(NumberToString(idClock), old(inputImage).value, outcome.value.value,
                                  prompt, timestampClock, old(activeTab))]
                  + old(generatedImages)
      ensures outcome.Some? && outcome.value.Failure? ==>
                generatedImages == old(generatedImages) && error == Some(ErrorText(outcome.value.error))
    {
      var pending := BeginGenerate(prompt);
      if pending.None? {
        return None;
      }
      var result := Gemini.GenerateEditedImage(apiKey, pending.value.original, prompt, service);
      CompleteGenerate(pending.value, result, idClock, timestampClock);
      outcome := Some(result);
    }

    /** handleMerchSelect: begin a generation with the product's prompt. */
    method HandleMerchSelect(product: MerchProduct) returns (pending: Option<Pending>)
      requires Valid()
      modifies this
      ensures Valid()
      ensures !Truthy(old(inputImage)) ==> pending == None && unchanged(this)
      ensures Truthy(old(inputImage)) ==>
                pending == Some(Pending(old(inputImage).value, MerchPrompt(product.name), old(activeTab))) &&
                isProcessing && error == None &&
                activeTab == old(activeTab) && inputImage == old(inputImage) &&
                generatedImages == old(generatedImages)
    {
      pending := BeginGenerate(MerchPrompt(product.name));
    }

    /** The tool panel (tabs, product grid, editor) is shown only while there
        is an input image, the product grid only on the merchandise tab, and
        the grid is disabled while processing. */
    function ProductGridEnabled(): bool
      reads this
    {
      Truthy(inputImage) && activeTab == Merch && !isProcessing
    }
  }

  /** A client of the session: upload, pick a product, get an image back;
      then a second attempt that the service rejects with a 403. */
  method CatalogThenDeniedScenario(upload: string, data: string, apiKey: string, denial: string)
    requires upload != "" && data != "" && apiKey != ""
    requires Includes(denial, "403")
  {
    var session := new Session();
    session.HandleImageUpload(upload);
    var pending := session.HandleMerchSelect(Products[1]);
    assert pending == Some(Pending(upload, MerchPrompt(Products[1].name), Merch));
    assert session.isProcessing;

    var image := Gemini.Part(Some(Gemini.InlineData(Some(data), Some("image/png"))), None);
    var response := Gemini.Response(Some([Gemini.Candidate(Some(Gemini.Content(Some([image]))))]));
    assert Gemini.FirstImageData(response) == Some(data);
    var responds := (req: Gemini.Request) => Gemini.Responded(response);
    var outcome := Gemini.GenerateEditedImage(Some(apiKey), upload, pending.value.prompt, responds);
    assert outcome == Success(Gemini.PngPrefix + data);
    session.CompleteGenerate(pending.value, outcome, 1, 1);
    assert |session.generatedImages| == 1 && session.generatedImages[0].kind == Merch;
    assert !session.isProcessing && session.error == None;

    var denies := (req: Gemini.Request) => Gemini.Threw(Gemini.Error(denial));
    Gemini.Classify403First(denial);
    pending := session.HandleMerchSelect(Products[0]);
    outcome := Gemini.GenerateEditedImage(Some(apiKey), upload, pending.value.prompt, denies);
    assert outcome == Failure(Gemini.Error(Gemini.PermissionDeniedMessage));
    session.CompleteGenerate(pending.value, outcome, 2, 2);
    assert session.error == Some(Gemini.PermissionDeniedMessage);
    assert |session.generatedImages| == 1 && !session.isProcessing;
  }
}
