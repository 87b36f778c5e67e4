/**
 * The state of the client view that server replies update
 * (frontend/Contextify/ContentView.swift): the transcript lines and the
 * extracted-term cards, both only ever appended to. JSON parsing is outside
 * the model: each received message comes with what `JSONSerialization` made
 * of it.
 */
module Frontend {
  import opened Wrappers
  import opened Json
  import opened Terms

  class ContentView {
    /** `@State transcribedText` */
    var transcribedText: seq<string>
    /** `@State extractedTerms` */
    var extractedTerms: seq<ExtractedTerm>
    /** The id the next card gets; it stands for `UUID()`, which never repeats. */
    var nextId: nat

    /** Card ids are distinct: they increase along the list and stay below `nextId`. */
    ghost predicate Valid()
      reads this
    {
      IdsBelow(extractedTerms, nextId)
    }

    constructor ()
      ensures Valid() && transcribedText == [] && extractedTerms == []
    {
      transcribedText := [];
      extractedTerms := [];
      nextId := 0;
    }

    /**
     * `parseJsonAndUpdateUI`: a reply that is a JSON object appends its
     * non-empty transcription and its cards; anything else changes nothing.
     */
    method ParseJsonAndUpdateUI(parsed: Option<JValue>)
      requires Valid()
      modifies this
      ensures Valid()
      ensures parsed.Some? && parsed.value.JObject? ==>
        var json := parsed.value.fields;
        && transcribedText == old(transcribedText) + TranscriptLines(json)
        && extractedTerms == old(extractedTerms) + Decoded(json, old(nextId))
        && nextId == old(nextId) + |Decoded(json, old(nextId))|
      ensures !(parsed.Some? && parsed.value.JObject?) ==>
        transcribedText == old(transcribedText) && extractedTerms == old(extractedTerms) && nextId == old(nextId)
    {
      if parsed.Some? && parsed.value.JObject? {
        ApplyReply(parsed.value.fields);
      }
    }

    /** The body of `parseJsonAndUpdateUI` once the reply is known to be a JSON object. */
    method ApplyReply(json: JObj)
      requires Valid()
      modifies this
      ensures Valid()
      ensures transcribedText == old(transcribedText) + TranscriptLines(json)
      ensures extractedTerms == old(extractedTerms) + Decoded(json, old(nextId))
      ensures nextId == old(nextId) + |Decoded(json, old(nextId))|
    {
      var transcriptionText := StringOr(json, "transcription", "");
      if transcriptionText != "" {
        transcribedText := transcribedText + [transcriptionText];
      }

      var courseDescriptions := Objects(json, Course);
      var personDescriptions := Objects(json, Person);
      var technicalTerms := Objects(json, TechTerm);
      var companyDetails := Objects(json, Company);

      ghost var terms0, id0 := extractedTerms, nextId;
      AppendCards(Course, courseDescriptions);
      ghost var terms1, id1 := extractedTerms, nextId;
      AppendCards(Person, personDescriptions);
      ghost var terms2, id2 := extractedTerms, nextId;
      AppendCards(TechTerm, technicalTerms);
      ghost var terms3, id3 := extractedTerms, nextId;
      AppendCompanies(companyDetails);
      Assemble(terms0, terms1, terms2, terms3, extractedTerms,
               courseDescriptions, personDescriptions, technicalTerms, companyDetails, id0, id1, id2, id3);
    }

    /**
     * The `.string` case of `receiveWebSocketMessages`: text that parses as
     * JSON goes through `ParseJsonAndUpdateUI`; other text is appended to the
     * transcript as it is.
     */
    method ReceiveString(text: string, parsed: Option<JValue>)
      requires Valid()
      modifies this
      ensures Valid()
      ensures parsed.None? ==>
        transcribedText == old(transcribedText) + [text] && extractedTerms == old(extractedTerms)
      ensures parsed.Some? && parsed.value.JObject? ==>
        var json := parsed.value.fields;
        && transcribedText == old(transcribedText) + TranscriptLines(json)
        && extractedTerms == old(extractedTerms) + Decoded(json, old(nextId))
      ensures parsed.Some? && !parsed.value.JObject? ==>
        transcribedText == old(transcribedText) && extractedTerms == old(extractedTerms)
    {
      if parsed.Some? {
        ParseJsonAndUpdateUI(parsed);
      } else {
        transcribedText := transcribedText + [text];
      }
    }

    /** The course, person and technical-term loops: one card per element, in order. */
    method AppendCards(cat: Category, objs: seq<JObj>)
      requires Valid() && cat != Company
      modifies this`extractedTerms, this`nextId
      ensures Valid()
      ensures extractedTerms == old(extractedTerms) + Cards(cat, objs, old(nextId))
      ensures nextId == old(nextId) + |objs|
    {
      for k := 0 to |objs|
        invariant Valid()
        invariant nextId == old(nextId) + k
        invariant extractedTerms == old(extractedTerms) + Cards(cat, objs[..k], old(nextId))
      {
        var extracted := Card(cat, objs[k], nextId);
        CardsSnoc(cat, objs, old(nextId), k);
        IdsGrow(extractedTerms, extracted, nextId);
        extractedTerms := extractedTerms + [extracted];
        nextId := nextId + 1;
      }
      assert objs[..|objs|] == objs;
    }

    /** The company loop: one card per element, in order, each with the news of its `news` array. */
    method AppendCompanies(objs: seq<JObj>)
      requires Valid()
      modifies this`extractedTerms, this`nextId
      ensures Valid()
      ensures extractedTerms == old(extractedTerms) + Cards(Company, objs, old(nextId))
      ensures nextId == old(nextId) + |objs|
    {
      for k := 0 to |objs|
        invariant Valid()
        invariant nextId == old(nextId) + k
        invariant extractedTerms == old(extractedTerms) + Cards(Company, objs[..k], old(nextId))
      {
        var extracted := CompanyCard(objs[k], nextId);
        CardsSnoc(Company, objs, old(nextId), k);
        IdsGrow(extractedTerms, extracted, nextId);
        extractedTerms := extractedTerms + [extracted];
        nextId := nextId + 1;
      }
      assert objs[..|objs|] == objs;
    }
  }

  /** The body of the company loop: name, description and the news built from the `news` array, if any. */
  method CompanyCard(comp: JObj, id: nat) returns (extracted: ExtractedTerm)
    ensures extracted == Card(Company, comp, id)
  {
    var companyName := StringOr(comp, "company_name", "Unknown Company");
    var description := StringOr(comp, "description", "No company info");
    match ObjectsAt(comp, "news") {
      case Some(newsArray) =>
        var newsItems := BuildNews(newsArray);
        extracted := ExtractedTerm(id, companyName, description, false,
                                   if newsItems == [] then None else Some(newsItems), None, None, false);
      case None =>
        extracted := ExtractedTerm(id, companyName, description, false, None, None, None, false);
    }
  }

  /** The inner loop over a company's `news` array: one item per element, in order, "" for missing fields. */
  method BuildNews(newsArray: seq<JObj>) returns (newsItems: seq<NewsItem>)
    ensures |newsItems| == |newsArray|
    ensures forall i :: 0 <= i < |newsArray| ==> newsItems[i] == NewsItemOf(newsArray[i])
    ensures newsItems == NewsItems(newsArray)
  {
    newsItems := [];
    for k := 0 to |newsArray|
      invariant |newsItems| == k
      invariant forall i :: 0 <= i < k ==> newsItems[i] == NewsItemOf(newsArray[i])
    {
      var n := newsArray[k];
      var title := StringOr(n, "title", "");
      var summary := StringOr(n, "summary", "");
      var imageURL := StringOr(n, "image_url", "");
      newsItems := newsItems + [NewsItem(title, summary, imageURL)];
    }
  }

  /** The ids of `terms` increase strictly and stay below `bound`. */
  ghost predicate IdsBelow(terms: seq<ExtractedTerm>, bound: nat)
  {
    && (forall i :: 0 <= i < |terms| ==> terms[i].id < bound)
    && (forall i, j :: 0 <= i < j < |terms| ==> terms[i].id < terms[j].id)
  }

  lemma IdsGrow(terms: seq<ExtractedTerm>, t: ExtractedTerm, bound: nat)
    requires IdsBelow(terms, bound) && t.id == bound
    ensures IdsBelow(terms + [t], bound + 1)
  {
  }

  lemma CardsSnoc(cat: Category, os: seq<JObj>, firstId: nat, k: nat)
    requires k < |os|
    ensures Cards(cat, os[..k + 1], firstId) == Cards(cat, os[..k], firstId) + [Card(cat, os[k], firstId + k)]
  {
  }

  /** Four successive appends leave the cards of one reply after the earlier ones. */
  lemma Assemble(t0: seq<ExtractedTerm>, t1: seq<ExtractedTerm>, t2: seq<ExtractedTerm>, t3: seq<ExtractedTerm>, t4: seq<ExtractedTerm>,
                 cs: seq<JObj>, ps: seq<JObj>, ts: seq<JObj>, ks: seq<JObj>, id0: nat, id1: nat, id2: nat, id3: nat)
    requires t1 == t0 + Cards(Course, cs, id0) && id1 == id0 + |cs|
    requires t2 == t1 + Cards(Person, ps, id1) && id2 == id1 + |ps|
    requires t3 == t2 + Cards(TechTerm, ts, id2) && id3 == id2 + |ts|
    requires t4 == t3 + Cards(Company, ks, id3)
    ensures t4 == t0 + Appended(cs, ps, ts, ks, id0)
  {
    Regroup(t0, Cards(Course, cs, id0), Cards(Person, ps, id1), Cards(TechTerm, ts, id2), Cards(Company, ks, id3));
  }

  lemma Regroup<T>(t: seq<T>, a: seq<T>, b: seq<T>, c: seq<T>, d: seq<T>)
    ensures t + a + b + c + d == t + (a + b + c + d)
  {
  }
}
