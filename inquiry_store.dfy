/**
 * The project-inquiry API of the React site's back end: an in-memory list of
 * inquiries and an id counter, with create, paginated list, lookup by id and
 * filter by e-mail. An inquiry is the posted JSON object, completed by the
 * server with an id, a creation time and the status "new".
 */
module InquiryStore {
  import opened Wrappers
  import opened JsText
  import opened ContactData

  /** A JSON value as far as the store looks at it. */
  datatype Json = JStr(s: string) | JNum(n: int) | JBool(b: bool) | JNull | JCompound

  /** A JSON object: its keys and values. */
  type Inquiry = map<string, Json>

  /** JavaScript truthiness of a property, `undefined` when absent. */
  predicate Present(o: Inquiry, key: string) {
    key in o &&
      match o[key]
      case JStr(s) => s != ""
      case JNum(n) => n != 0
      case JBool(b) => b
      case JNull => false
      case JCompound => true
  }

  /** A string property, absent when missing or not a string. */
  function Text(o: Inquiry, key: string): (r: Option<string>)
    ensures r.Some? <==> key in o && o[key].JStr?
  {
    if key in o && o[key].JStr? then Some(o[key].s) else None
  }

  /** `o[key] || ''` as the notification sees it; a truthy non-string counts as absent. */
  function TextOrEmpty(o: Inquiry, key: string): (r: Option<string>)
    ensures Present(o, key) && o[key].JStr? ==> r == Some(o[key].s)
    ensures !Present(o, key) ==> r == Some("")
  {
    if Present(o, key) then Text(o, key) else Some("")
  }

  const MissingInquiryFields: string := "Missing required fields: full_name, email, project_description"
  const NotFound: string := "Project inquiry not found"

  /** The reply to a create request. */
  datatype CreateReply =
    | Created(id: Json, status: string, createdAt: string)
    | Rejected(error: string)

  /** The three fields a new inquiry must carry. */
  predicate HasRequiredFields(body: Inquiry) {
    Present(body, "full_name") && Present(body, "email") && Present(body, "project_description")
  }

  /**
   * `{ id: nextId, ...body, created_at, status: 'new' }`: the body's own
   * properties override the id, and the server's time and status override
   * the body.
   */
  function NewInquiry(id: int, body: Inquiry, now: string): (r: Inquiry)
    ensures r.Keys == body.Keys + {"id", "created_at", "status"}
    ensures r["id"] == if "id" in body then body["id"] else JNum(id)
    ensures r["created_at"] == JStr(now) && r["status"] == JStr("new")
    ensures forall k | k in body && k != "created_at" && k != "status" :: r[k] == body[k]
  {
    map["id" := JNum(id)] + body + map["created_at" := JStr(now), "status" := JStr("new")]
  }

  /** The data the notification e-mail is sent with, at the default priority. */
  function Notification(body: Inquiry): (s: Submission)
    ensures s.name == Text(body, "full_name") && s.email == Text(body, "email")
    ensures s.message == Text(body, "project_description")
    ensures s.priority == Some("Media") && s.company.None? && s.service.None?
    ensures s.phone == TextOrEmpty(body, "phone")
    ensures s.budget == TextOrEmpty(body, "budget_estimate")
    ensures s.timeline == TextOrEmpty(body, "project_timeline")
  {
    Submission(Text(body, "full_name"), Text(body, "email"), TextOrEmpty(body, "phone"), None, None,
      TextOrEmpty(body, "budget_estimate"), TextOrEmpty(body, "project_timeline"), Some("Media"),
      Text(body, "project_description"))
  }

  /** One page of the list, with the store's full size; `None` is the `null` that `NaN` prints as. */
  datatype Page = Page(inquiries: seq<Inquiry>, total: nat, skip: Option<int>, limit: Option<int>)

  /** An inquiry whose `id` is the number `id` (strict equality: a string id never matches). */
  predicate HasId(i: Inquiry, id: int) {
    "id" in i && i["id"] == JNum(id)
  }

  /** An inquiry whose `email` is the string `email`. */
  predicate HasEmail(i: Inquiry, email: string) {
    "email" in i && i["email"] == JStr(email)
  }

  /** `find`: the first inquiry with the id, if any. */
  function FindFirst(s: seq<Inquiry>, id: int): (r: Option<nat>)
    ensures r.Some? ==> r.value < |s| && HasId(s[r.value], id)
    ensures r.Some? ==> forall k | 0 <= k < r.value :: !HasId(s[k], id)
    ensures r.None? ==> forall k | 0 <= k < |s| :: !HasId(s[k], id)
  {
    if s == [] then None
    else if HasId(s[0], id) then Some(0)
    else match FindFirst(s[1..], id)
      case None => None
      case Some(k) => Some(k + 1)
  }

  /** `filter`: the inquiries with the e-mail, in store order. */
  function FilterEmail(s: seq<Inquiry>, email: string): (r: seq<Inquiry>)
    ensures |r| <= |s|
    ensures forall i | i in r :: i in s && HasEmail(i, email)
    ensures forall i | i in s && HasEmail(i, email) :: i in r
  {
    if s == [] then []
    else if HasEmail(s[0], email) then [s[0]] + FilterEmail(s[1..], email)
    else FilterEmail(s[1..], email)
  }

  /** Filtering a concatenation filters each part, so the store's order and repetitions are kept. */
  lemma {:induction false} FilterEmailAppend(s1: seq<Inquiry>, s2: seq<Inquiry>, email: string)
    ensures FilterEmail(s1 + s2, email) == FilterEmail(s1, email) + FilterEmail(s2, email)
  {
    if s1 == [] {
      assert s1 + s2 == s2;
    } else {
      assert (s1 + s2)[0] == s1[0];
      assert (s1 + s2)[1..] == s1[1..] + s2;
      FilterEmailAppend(s1[1..], s2, email);
    }
  }

  /** One inquiry is kept exactly when it has the e-mail. */
  lemma FilterEmailOne(i: Inquiry, email: string)
    ensures FilterEmail([i], email) == if HasEmail(i, email) then [i] else []
  {
  }

  class Store {
    var inquiries: seq<Inquiry>
    var nextId: int

    /** Every stored inquiry took one id from the counter, and carries the server's status. */
    predicate Valid()
      reads this
    {
      && nextId == |inquiries| + 1
      && forall k | 0 <= k < |inquiries| :: "status" in inquiries[k] && inquiries[k]["status"] == JStr("new")
    }

    constructor ()
      ensures Valid() && inquiries == [] && nextId == 1
    {
      inquiries, nextId := [], 1;
    }

    /**
     * POST: a body without the three fields is refused and nothing changes;
     * otherwise exactly one inquiry is appended under the next id, and the
     * notification is handed to the mail service. A failed notification does
     * not change the reply, which is why its outcome is no input here.
     */
    method Create(body: Inquiry, now: string) returns (reply: CreateReply, notice: Option<Submission>)
      modifies this
      requires Valid()
      ensures Valid()
      ensures !HasRequiredFields(body) ==>
        reply == Rejected(MissingInquiryFields) && notice.None?
        && inquiries == old(inquiries) && nextId == old(nextId)
      ensures HasRequiredFields(body) ==>
        && inquiries == old(inquiries) + [NewInquiry(old(nextId), body, now)]
        && nextId == old(nextId) + 1
        && reply == Created(NewInquiry(old(nextId), body, now)["id"], "new", now)
        && notice == Some(Notification(body))
    {
      if !Present(body, "full_name") || !Present(body, "email") || !Present(body, "project_description") {
        return Rejected(MissingInquiryFields), None;
      }
      var inquiry := NewInquiry(nextId, body, now);
      nextId := nextId + 1;
      inquiries := inquiries + [inquiry];
      notice := Some(Notification(body));
      reply := Created(inquiry["id"], "new", now);
    }

    /** `slice(start, start + count)` of the store: a run from the start index on, at most `count` long. */
    function Window(start: int, count: int): (w: seq<Inquiry>)
      reads this
      ensures var a := SliceIndex(start, |inquiries|);
        && |w| <= |inquiries| - a
        && forall k | 0 <= k < |w| :: w[k] == inquiries[a + k]
      ensures 0 <= start && 0 <= count ==> |w| <= count
      ensures 0 <= start && 0 <= count ==>
        |w| == if start + count <= |inquiries| then count else |inquiries| - SliceIndex(start, |inquiries|)
    {
      JsSlice(inquiries, start, start + count)
    }

    /** A window from the start is the store's first `count` inquiries, or all of them when there are fewer. */
    lemma WindowFromStart(count: nat)
      ensures Window(0, count) == inquiries[..if |inquiries| < count then |inquiries| else count]
    {
      var w := Window(0, count);
      var n := if |inquiries| < count then |inquiries| else count;
      assert SliceIndex(0, |inquiries|) == 0;
      assert |w| == n;
      assert forall k | 0 <= k < n :: w[k] == inquiries[..n][k];
    }

    /**
     * GET list: the query's `skip` and `limit` (as text, defaulting to 0 and
     * 100) go through `parseInt`, and the page is the store's `Window`. When
     * either is not a number the page is empty, because `slice` reads `NaN`
     * as 0, and the reply carries `null` for it.
     */
    function List(skip: Option<string>, limit: Option<string>): (p: Page)
      reads this
      ensures p.total == |inquiries|
      ensures p.skip == ParseInt(if skip.Some? then skip.value else "0")
      ensures p.limit == ParseInt(if limit.Some? then limit.value else "100")
      ensures p.skip.None? || p.limit.None? ==> p.inquiries == []
      ensures p.skip.Some? && p.limit.Some? ==> p.inquiries == Window(p.skip.value, p.limit.value)
    {
      var start := ParseInt(if skip.Some? then skip.value else "0");
      var count := ParseInt(if limit.Some? then limit.value else "100");
      if start.None? || count.None? then Page([], |inquiries|, start, count)
      else Page(Window(start.value, count.value), |inquiries|, start, count)
    }

    /**
     * GET by id: the path's id goes through `parseInt`, and `find` returns the
     * first inquiry whose id is that number, else 404 (as for `NaN`, which
     * equals nothing).
     */
    function FindById(idText: string): (r: Result<Inquiry, string>)
      reads this
      ensures r.Success? <==> ParseInt(idText).Some? && FindFirst(inquiries, ParseInt(idText).value).Some?
      ensures r.Success? ==> r.value == inquiries[FindFirst(inquiries, ParseInt(idText).value).value]
      ensures r.Success? ==> HasId(r.value, ParseInt(idText).value)
      ensures r.Failure? ==> r.error == NotFound
    {
      match ParseInt(idText)
      case None => Failure(NotFound)
      case Some(id) =>
        match FindFirst(inquiries, id)
        case Some(k) => Success(inquiries[k])
        case None => Failure(NotFound)
    }

    /**
     * GET by e-mail: the inquiries with that e-mail in store order (see
     * `FilterEmailAppend`), and how many there are.
     */
    function ByEmail(email: string): (r: (seq<Inquiry>, nat))
      reads this
      ensures r.0 == FilterEmail(inquiries, email)
      ensures r.1 == |r.0| <= |inquiries|
      ensures forall i | i in r.0 :: i in inquiries && HasEmail(i, email)
      ensures forall i | i in inquiries && HasEmail(i, email) :: i in r.0
    {
      var found := FilterEmail(inquiries, email);
      (found, |found|)
    }
  }

  /** Without a query, the list is the first hundred inquiries. */
  lemma ListDefault(store: Store)
    ensures var p := store.List(None, None);
      && p.skip == Some(0) && p.limit == Some(100)
      && p.inquiries == store.inquiries[..if |store.inquiries| < 100 then |store.inquiries| else 100]
  {
    DefaultsParse();
    store.WindowFromStart(100);
  }

  /** The default query texts read as 0 and 100. */
  lemma DefaultsParse()
    ensures ParseInt("0") == Some(0) && ParseInt("100") == Some(100)
  {
    assert TrimStart("0") == "0" && TrimStart("100") == "100";
    LeadingDigitsAll("0", false);
    LeadingDigitsAll("100", false);
    assert "100"[..2] == "10" && "10"[..1] == "1";
    assert DigitsValue("100", false) == 100;
  }

  /** Without an `id` of its own, a created inquiry gets exactly the counter's value. */
  lemma ServerIdUnlessOverridden(id: int, body: Inquiry, now: string)
    requires "id" !in body
    ensures HasId(NewInquiry(id, body, now), id)
  {
  }
}
