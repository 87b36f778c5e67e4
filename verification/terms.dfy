/**
 * The records the client shows as cards (frontend/Contextify/ContentView.swift)
 * and what one server reply decodes to: the transcript line it adds and the
 * cards it appends, courses first, then persons, technical terms, companies.
 */
module Terms {
  import opened Wrappers
  import opened Json

  datatype NewsItem = NewsItem(title: string, summary: string, imageURL: string)

  /** `id` stands for the `UUID()` each card receives when it is created. */
  datatype ExtractedTerm = ExtractedTerm(
    id: nat,
    term: string,
    definition: string,
    isName: bool,
    news: Option<seq<NewsItem>>,
    courseCode: Option<string>,
    courseName: Option<string>,
    isCourse: bool)

  /** `ExtractedTerm.==`: all fields except `id` and `news`. */
  predicate Same(lhs: ExtractedTerm, rhs: ExtractedTerm)
  {
    && lhs.term == rhs.term
    && lhs.definition == rhs.definition
    && lhs.isName == rhs.isName
    && lhs.courseCode == rhs.courseCode
    && lhs.courseName == rhs.courseName
    && lhs.isCourse == rhs.isCourse
  }

  /** `==` on cards is an equivalence relation. */
  lemma SameIsEquivalence(a: ExtractedTerm, b: ExtractedTerm, c: ExtractedTerm)
    ensures Same(a, a)
    ensures Same(a, b) ==> Same(b, a)
    ensures Same(a, b) && Same(b, c) ==> Same(a, c)
  {
  }

  /** Two cards are `==` exactly when they agree once `id` and `news` are set aside. */
  lemma SameIffEqualApartFromIdAndNews(a: ExtractedTerm, b: ExtractedTerm)
    ensures Same(a, b) <==> a.(id := 0, news := None) == b.(id := 0, news := None)
  {
  }

  /** The four categories of a reply, in the order the client appends them. */
  datatype Category = Course | Person | TechTerm | Company

  /** The reply field that holds each category's array. */
  function Key(cat: Category): string
  {
    match cat
    case Course => "course_descriptions"
    case Person => "person_descriptions"
    case TechTerm => "technical_term_definitions"
    case Company => "company_details"
  }

  /** One element of a company's `news` array; every missing field becomes "". */
  function NewsItemOf(n: JObj): NewsItem
  {
    NewsItem(StringOr(n, "title", ""), StringOr(n, "summary", ""), StringOr(n, "image_url", ""))
  }

  /** The news items of a `news` array, one per element, in order. */
  function NewsItems(ns: seq<JObj>): (r: seq<NewsItem>)
    ensures |r| == |ns|
    ensures forall i :: 0 <= i < |ns| ==> r[i] == NewsItemOf(ns[i])
  {
    if ns == [] then [] else [NewsItemOf(ns[0])] + NewsItems(ns[1..])
  }

  /**
   * A company's news: nil when `news` is absent, is not an array of objects,
   * or is empty; otherwise one item per element, in order.
   */
  function CompanyNews(o: JObj): (r: Option<seq<NewsItem>>)
    ensures r.None? <==> ObjectsAt(o, "news").None? || ObjectsAt(o, "news").value == []
    ensures r.Some? ==> |r.value| == |o["news"].items|
    ensures r.Some? ==> forall i :: 0 <= i < |r.value| ==>
      o["news"].items[i] == JObject(ObjectsAt(o, "news").value[i]) && r.value[i] == NewsItemOf(ObjectsAt(o, "news").value[i])
  {
    match ObjectsAt(o, "news")
    case None => None
    case Some(ns) => if ns == [] then None else Some(NewsItems(ns))
  }

  /** The card built from one element `o` of the array for `cat`. */
  function Card(cat: Category, o: JObj, id: nat): ExtractedTerm
  {
    match cat
    case Course =>
      ExtractedTerm(id, "", StringOr(o, "description", "No description"), false, None,
                    Some(StringOr(o, "course_code", "UnknownCode")),
                    Some(StringOr(o, "course_name", "UnknownCourseName")), true)
    case Person =>
      ExtractedTerm(id, StringOr(o, "person_name", "Unknown Person"),
                    StringOr(o, "description", "No bio"), true, None, None, None, false)
    case TechTerm =>
      ExtractedTerm(id, StringOr(o, "term", "Unknown TechTerm"),
                    StringOr(o, "description", "No definition"), false, None, None, None, false)
    case Company =>
      ExtractedTerm(id, StringOr(o, "company_name", "Unknown Company"),
                    StringOr(o, "description", "No company info"), false, CompanyNews(o), None, None, false)
  }

  /** The flags and optional fields of a card are fixed by its category. */
  lemma CardShape(cat: Category, o: JObj, id: nat)
    ensures var t := Card(cat, o, id);
      && t.id == id
      && (t.isCourse <==> cat == Course)
      && (t.isName <==> cat == Person)
      && (cat == Course ==> t.term == "" && t.news == None && t.courseCode.Some? && t.courseName.Some?)
      && (cat != Course ==> t.courseCode == None && t.courseName == None)
      && (cat != Company ==> t.news == None)
      && (cat == Company ==> t.news == CompanyNews(o))
  {
  }

  /** An element with no string fields yields the category's placeholder card. */
  lemma PlaceholdersWhenMissing(cat: Category, o: JObj, id: nat)
    requires forall k :: k in o ==> !o[k].JString?
    ensures var t := Card(cat, o, id);
      && (cat == Course ==>
            t == ExtractedTerm(id, "", "No description", false, None, Some("UnknownCode"), Some("UnknownCourseName"), true))
      && (cat == Person ==> t == ExtractedTerm(id, "Unknown Person", "No bio", true, None, None, None, false))
      && (cat == TechTerm ==> t == ExtractedTerm(id, "Unknown TechTerm", "No definition", false, None, None, None, false))
      && (cat == Company ==> t.term == "Unknown Company" && t.definition == "No company info")
  {
  }

  /** `o[k] as? String` succeeds. */
  predicate HasString(o: JObj, k: string)
  {
    k in o && o[k].JString?
  }

  /** Each field of a course card is its string field when present, else its own placeholder. */
  lemma CourseFields(o: JObj, id: nat)
    ensures var t := Card(Course, o, id);
      && (HasString(o, "course_code") ==> t.courseCode == Some(o["course_code"].s))
      && (!HasString(o, "course_code") ==> t.courseCode == Some("UnknownCode"))
      && (HasString(o, "course_name") ==> t.courseName == Some(o["course_name"].s))
      && (!HasString(o, "course_name") ==> t.courseName == Some("UnknownCourseName"))
      && (HasString(o, "description") ==> t.definition == o["description"].s)
      && (!HasString(o, "description") ==> t.definition == "No description")
  {
  }

  /** Each field of a person card is its string field when present, else its own placeholder. */
  lemma PersonFields(o: JObj, id: nat)
    ensures var t := Card(Person, o, id);
      && (HasString(o, "person_name") ==> t.term == o["person_name"].s)
      && (!HasString(o, "person_name") ==> t.term == "Unknown Person")
      && (HasString(o, "description") ==> t.definition == o["description"].s)
      && (!HasString(o, "description") ==> t.definition == "No bio")
  {
  }

  /** Each field of a technical-term card is its string field when present, else its own placeholder. */
  lemma TechTermFields(o: JObj, id: nat)
    ensures var t := Card(TechTerm, o, id);
      && (HasString(o, "term") ==> t.term == o["term"].s)
      && (!HasString(o, "term") ==> t.term == "Unknown TechTerm")
      && (HasString(o, "description") ==> t.definition == o["description"].s)
      && (!HasString(o, "description") ==> t.definition == "No definition")
  {
  }

  /** Each field of a company card is its string field when present, else its own placeholder. */
  lemma CompanyFields(o: JObj, id: nat)
    ensures var t := Card(Company, o, id);
      && (HasString(o, "company_name") ==> t.term == o["company_name"].s)
      && (!HasString(o, "company_name") ==> t.term == "Unknown Company")
      && (HasString(o, "description") ==> t.definition == o["description"].s)
      && (!HasString(o, "description") ==> t.definition == "No company info")
  {
  }

  /** Each field of a news item is its string field when present, else "". */
  lemma NewsItemFields(n: JObj)
    ensures var item := NewsItemOf(n);
      && (HasString(n, "title") ==> item.title == n["title"].s)
      && (!HasString(n, "title") ==> item.title == "")
      && (HasString(n, "summary") ==> item.summary == n["summary"].s)
      && (!HasString(n, "summary") ==> item.summary == "")
      && (HasString(n, "image_url") ==> item.imageURL == n["image_url"].s)
      && (!HasString(n, "image_url") ==> item.imageURL == "")
  {
  }

  /** The cards for the elements `os` of one category's array: one per element, in array order, with consecutive ids from `firstId`. */
  function Cards(cat: Category, os: seq<JObj>, firstId: nat): (r: seq<ExtractedTerm>)
    ensures |r| == |os|
  {
    seq(|os|, i requires 0 <= i < |os| => Card(cat, os[i], firstId + i))
  }

  /** The elements of a category's array; an absent or ill-typed array counts as empty. */
  function Objects(json: JObj, cat: Category): seq<JObj>
  {
    ObjectsOrEmpty(json, Key(cat))
  }

  /** The cards appended for the four arrays of a reply, numbered from `firstId`. */
  function Appended(cs: seq<JObj>, ps: seq<JObj>, ts: seq<JObj>, ks: seq<JObj>, firstId: nat): seq<ExtractedTerm>
  {
    Cards(Course, cs, firstId)
      + Cards(Person, ps, firstId + |cs|)
      + Cards(TechTerm, ts, firstId + |cs| + |ps|)
      + Cards(Company, ks, firstId + |cs| + |ps| + |ts|)
  }

  /** The cards a reply appends, numbered from `firstId`. */
  function Decoded(json: JObj, firstId: nat): seq<ExtractedTerm>
  {
    Appended(Objects(json, Course), Objects(json, Person), Objects(json, TechTerm), Objects(json, Company), firstId)
  }

  /**
   * How many cards a category adds, read off the JSON: the length of its
   * array when that is an array of objects, and none otherwise.
   */
  function ArrayCount(json: JObj, cat: Category): nat
  {
    var key := Key(cat);
    if key in json && json[key].JArray? && forall i :: 0 <= i < |json[key].items| ==> json[key].items[i].JObject?
    then |json[key].items|
    else 0
  }

  lemma ObjectsCount(json: JObj, cat: Category)
    ensures |Objects(json, cat)| == ArrayCount(json, cat)
  {
  }

  /** A reply adds exactly one card per element of its four arrays; an absent or ill-typed array adds none. */
  lemma DecodedCount(json: JObj, firstId: nat)
    ensures |Decoded(json, firstId)|
      == ArrayCount(json, Course) + ArrayCount(json, Person) + ArrayCount(json, TechTerm) + ArrayCount(json, Company)
  {
    ObjectsCount(json, Course);
    ObjectsCount(json, Person);
    ObjectsCount(json, TechTerm);
    ObjectsCount(json, Company);
  }

  /** The transcript lines a reply appends: its `transcription` when that is a non-empty string. */
  function TranscriptLines(json: JObj): seq<string>
  {
    var text := StringOr(json, "transcription", "");
    if text == "" then [] else [text]
  }

  lemma TranscriptOnlyWhenNonEmptyString(json: JObj)
    ensures TranscriptLines(json) != [] <==>
      "transcription" in json && json["transcription"].JString? && json["transcription"].s != ""
    ensures TranscriptLines(json) != [] ==> TranscriptLines(json) == [json["transcription"].s]
  {
  }

  /**
   * Which array element gives card `i`: the courses come first, then the
   * persons, the technical terms and the companies, each in array order.
   */
  function Slot(cs: seq<JObj>, ps: seq<JObj>, ts: seq<JObj>, ks: seq<JObj>, i: nat): (Category, JObj)
    requires i < |cs| + |ps| + |ts| + |ks|
  {
    if i < |cs| then (Course, cs[i])
    else if i < |cs| + |ps| then (Person, ps[i - |cs|])
    else if i < |cs| + |ps| + |ts| then (TechTerm, ts[i - |cs| - |ps|])
    else (Company, ks[i - |cs| - |ps| - |ts|])
  }

  /**
   * The four arrays append exactly as many cards as they hold, and card `i`
   * is the card of the `i`-th element in the order courses, persons,
   * technical terms, companies, with id `firstId + i`.
   */
  lemma AppendedAt(cs: seq<JObj>, ps: seq<JObj>, ts: seq<JObj>, ks: seq<JObj>, firstId: nat, i: nat)
    requires i < |cs| + |ps| + |ts| + |ks|
    ensures |Appended(cs, ps, ts, ks, firstId)| == |cs| + |ps| + |ts| + |ks|
    ensures var (cat, o) := Slot(cs, ps, ts, ks, i);
      Appended(cs, ps, ts, ks, firstId)[i] == Card(cat, o, firstId + i)
    ensures Appended(cs, ps, ts, ks, firstId)[i].id == firstId + i
  {
    var (cat, o) := Slot(cs, ps, ts, ks, i);
    CardShape(cat, o, firstId + i);
  }

  /** The card of one element does not depend on the id it is given, up to `==`. */
  lemma CardSameForAnyId(cat: Category, o: JObj, id: nat, other: nat)
    ensures Same(Card(cat, o, id), Card(cat, o, other))
    ensures id != other ==> Card(cat, o, id) != Card(cat, o, other)
  {
    CardShape(cat, o, id);
    CardShape(cat, o, other);
  }

  /** Appending the same arrays again gives cards `==` to the first ones, position by position, each with a new id. */
  lemma ReappendedCardsAreSame(cs: seq<JObj>, ps: seq<JObj>, ts: seq<JObj>, ks: seq<JObj>,
                               firstId: nat, laterId: nat, i: nat)
    requires i < |cs| + |ps| + |ts| + |ks|
    ensures |Appended(cs, ps, ts, ks, laterId)| == |Appended(cs, ps, ts, ks, firstId)|
    ensures Same(Appended(cs, ps, ts, ks, firstId)[i], Appended(cs, ps, ts, ks, laterId)[i])
    ensures firstId != laterId ==> Appended(cs, ps, ts, ks, firstId)[i] != Appended(cs, ps, ts, ks, laterId)[i]
  {
    AppendedAt(cs, ps, ts, ks, firstId, i);
    AppendedAt(cs, ps, ts, ks, laterId, i);
    var (cat, o) := Slot(cs, ps, ts, ks, i);
    CardSameForAnyId(cat, o, firstId + i, laterId + i);
  }

  /**
   * The same reply decoded again gives cards that are `==` to the first ones,
   * position by position, although each card has a new id.
   */
  lemma RedecodedCardsAreSame(json: JObj, firstId: nat, laterId: nat, i: nat)
    requires i < |Decoded(json, firstId)|
    ensures |Decoded(json, laterId)| == |Decoded(json, firstId)|
    ensures Same(Decoded(json, firstId)[i], Decoded(json, laterId)[i])
    ensures firstId != laterId ==> Decoded(json, firstId)[i] != Decoded(json, laterId)[i]
  {
    var cs, ps, ts, ks := Objects(json, Course), Objects(json, Person), Objects(json, TechTerm), Objects(json, Company);
    ReappendedCardsAreSame(cs, ps, ts, ks, firstId, laterId, i);
  }
}
