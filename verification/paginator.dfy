/** The page loop of `fetch_tickets`, shared by the three scripts.  The HTTP
    side is a finite sequence of responses, one per page number from 1; every
    page past its end answers 200 with an empty list. */
module Paginator {
  import opened Wrappers
  import opened PyJson

  /** One HTTP answer: the status code, and the decoded body or `None` when
      `response.json()` raises. */
  datatype Response = Response(status: int, body: Option<Json>)

  /** How a dict body is unwrapped: `data.get("data", data)` (tickets and
      feedbacks) or `data.get("content", [])` (time entries). */
  datatype Wrapper = DataOrWhole | ContentOrEmpty

  /** Why the loop ended.  `NotIterable` is the TypeError `extend` raises,
      which escapes `fetch_tickets` and ends the run. */
  datatype Stop = BadStatus(code: int) | BadJson | BadShape | NoRecords | PageCap | NotIterable

  /** What one page contributes: its records, or the reason it ends the loop. */
  datatype Step = Halt(why: Stop) | Take(records: seq<Json>)

  /** The loop's result: the accumulated records, the page numbers requested
      in order, and why it stopped. */
  datatype Fetch = Fetch(records: seq<Json>, requested: seq<int>, stop: Stop)

  /** The answer once the API has run out of pages. */
  const EndOfData := Response(200, Some(List([])))

  function PageAt(rs: seq<Response>, page: int): Response {
    if 1 <= page <= |rs| then rs[page - 1] else EndOfData
  }

  /** The member a dict body's records are read from. */
  function EnvelopeKey(w: Wrapper): string {
    match w
    case DataOrWhole => "data"
    case ContentOrEmpty => "content"
  }

  /** The record set taken from a decoded body, or `None` for a body that is
      neither a list nor a dict. */
  function Unwrap(w: Wrapper, body: Json): (r: Option<Json>)
    ensures r.None? <==> !body.List? && !body.Obj?
    ensures body.List? ==> r == Some(body)
    ensures body.Obj? && w == DataOrWhole && !HasKey(body.fields, "data") ==> r == Some(body)
    ensures body.Obj? && w == ContentOrEmpty && !HasKey(body.fields, "content") ==> r == Some(List([]))
    ensures body.Obj? && HasKey(body.fields, EnvelopeKey(w)) ==> r == Get(body.fields, EnvelopeKey(w))
  {
    match body
    case List(_) => Some(body)
    case Obj(fs) =>
      (match w
       case DataOrWhole => Some(Get(fs, "data").GetOr(body))
       case ContentOrEmpty => Some(Get(fs, "content").GetOr(List([]))))
    case _ => None
  }

  /** One iteration of the loop body up to the page-cap test: the checks in
      the order the code makes them. */
  function PageStep(w: Wrapper, resp: Response): (s: Step)
    ensures resp.status != 200 ==> s == Halt(BadStatus(resp.status))
    ensures resp.status == 200 && resp.body.None? ==> s == Halt(BadJson)
    ensures s.Take? ==> resp.status == 200 && resp.body.Some? && |s.records| > 0
    ensures s == Halt(BadShape) <==>
              resp.status == 200 && resp.body.Some? && !resp.body.value.List? && !resp.body.value.Obj?
    ensures resp.status == 200 && resp.body.Some? && Unwrap(w, resp.body.value).Some? ==>
              var t := Unwrap(w, resp.body.value).value;
              && (s == Halt(NoRecords) <==> !Truthy(t))
              && (Truthy(t) && Iterate(t).Some? ==> s == Take(Iterate(t).value))
              && (Truthy(t) && Iterate(t).None? ==> s == Halt(NotIterable))
  {
    if resp.status != 200 then Halt(BadStatus(resp.status))
    else if resp.body.None? then Halt(BadJson)
    else match Unwrap(w, resp.body.value)
      case None => Halt(BadShape)
      case Some(t) =>
        if !Truthy(t) then Halt(NoRecords)
        else match Iterate(t)
          case None => Halt(NotIterable)
          case Some(xs) => Take(xs)
  }

  /** `if limit_pages and current_page >= limit_pages`: a cap of 0 or None is
      no cap, since both are falsy in Python. */
  predicate CapHit(limit: Option<int>, page: int) {
    limit.Some? && limit.value != 0 && page >= limit.value
  }

  /** Every response classified by `PageStep`, page 1 first. */
  function Classify(rs: seq<Response>, w: Wrapper): (steps: seq<Step>)
    ensures |steps| == |rs|
    ensures forall i :: 0 <= i < |rs| ==> steps[i] == PageStep(w, rs[i])
  {
    seq(|rs|, i requires 0 <= i < |rs| => PageStep(w, rs[i]))
  }

  /** The step of page `page`; past the last response the API answers with an
      empty list, which ends the loop by emptiness. */
  function StepAt(steps: seq<Step>, page: int): Step {
    if 1 <= page <= |steps| then steps[page - 1] else Halt(NoRecords)
  }

  lemma StepAtClassify(rs: seq<Response>, w: Wrapper, page: int)
    ensures StepAt(Classify(rs, w), page) == PageStep(w, PageAt(rs, page))
  {
    if !(1 <= page <= |rs|) {
      assert PageAt(rs, page) == EndOfData;
      assert Unwrap(w, List([])) == Some(List([]));
    }
  }

  /** The loop goes on past `page`: the page yields records and the cap is not hit. */
  predicate Continues(steps: seq<Step>, limit: Option<int>, page: int) {
    StepAt(steps, page).Take? && !CapHit(limit, page)
  }

  function RecordsOf(s: Step): seq<Json> {
    match s
    case Take(xs) => xs
    case Halt(_) => []
  }

  /** Reference definition: the records of pages `from` .. `to - 1`, in page
      order, a halting page contributing nothing. */
  function Taken(steps: seq<Step>, from: int, to: int): seq<Json>
    decreases to - from
  {
    if from >= to then [] else RecordsOf(StepAt(steps, from)) + Taken(steps, from + 1, to)
  }

  /** The loop from `page` on, as a recursion over the page counter: the
      pages requested are `page`, `page + 1`, ... with no gap, and never more
      than one past the last response. */
  function Loop(steps: seq<Step>, limit: Option<int>, page: int): (f: Fetch)
    requires page >= 1
    decreases |steps| + 1 - page
    ensures 1 <= |f.requested| <= if page <= |steps| then |steps| + 2 - page else 1
    ensures forall i :: 0 <= i < |f.requested| ==> f.requested[i] == page + i
  {
    match StepAt(steps, page)
    case Halt(why) => Fetch([], [page], why)
    case Take(xs) =>
      if CapHit(limit, page) then Fetch(xs, [page], PageCap)
      else
        var rest := Loop(steps, limit, page + 1);
        Fetch(xs + rest.records, [page] + rest.requested, rest.stop)
  }

  /** What `fetch_tickets` returns for these responses. */
  function Fetched(rs: seq<Response>, w: Wrapper, limit: Option<int>): Fetch {
    Loop(Classify(rs, w), limit, 1)
  }

  /** The loop stops at the first page that does not continue it, and
      returns exactly the records of the pages it requested, in page order. */
  lemma {:induction false} LoopCharacterized(steps: seq<Step>, limit: Option<int>, page: int)
    requires page >= 1
    decreases |steps| + 1 - page
    ensures var f := Loop(steps, limit, page);
            && (forall q :: page <= q < page + |f.requested| - 1 ==> Continues(steps, limit, q))
            && !Continues(steps, limit, page + |f.requested| - 1)
            && f.records == Taken(steps, page, page + |f.requested|)
            && var last := StepAt(steps, page + |f.requested| - 1);
               f.stop == if last.Halt? then last.why else PageCap
  {
    if Continues(steps, limit, page) {
      LoopCharacterized(steps, limit, page + 1);
    }
  }

  /** `f` as seen after `all` and `requested` were accumulated first. */
  function After(all: seq<Json>, requested: seq<int>, f: Fetch): Fetch {
    Fetch(all + f.records, requested + f.requested, f.stop)
  }

  /** One unfolding of `Loop`, one equation per way the body can end. */
  lemma LoopUnfold(steps: seq<Step>, limit: Option<int>, page: int)
    requires page >= 1
    ensures StepAt(steps, page).Halt? ==>
              Loop(steps, limit, page) == Fetch([], [page], StepAt(steps, page).why)
    ensures StepAt(steps, page).Take? && CapHit(limit, page) ==>
              Loop(steps, limit, page) == Fetch(StepAt(steps, page).records, [page], PageCap)
    ensures Continues(steps, limit, page) ==>
              Loop(steps, limit, page) == After(StepAt(steps, page).records, [page], Loop(steps, limit, page + 1))
  {
  }

  lemma AfterAfter(a: seq<Json>, r: seq<int>, b: seq<Json>, q: seq<int>, f: Fetch)
    ensures After(a, r, After(b, q, f)) == After(a + b, r + q, f)
  {
    assert a + (b + f.records) == (a + b) + f.records;
    assert r + (q + f.requested) == (r + q) + f.requested;
  }

  /** One request and the checks on its answer, as the loop body makes them. */
  method RequestPage(rs: seq<Response>, w: Wrapper, page: int) returns (s: Step)
    ensures s == StepAt(Classify(rs, w), page)
  {
    s := PageStep(w, PageAt(rs, page));
    StepAtClassify(rs, w, page);
  }

  /** `fetch_tickets(limit_pages=limit)`: the while loop, starting at page 1. */
  method FetchTickets(rs: seq<Response>, w: Wrapper, limit: Option<int>) returns (f: Fetch)
    ensures f == Fetched(rs, w, limit)
  {
    ghost var steps := Classify(rs, w);
    var all: seq<Json> := [];
    var requested: seq<int> := [];
    var page := 1;
    while true
      invariant 1 <= page <= |rs| + 1
      invariant Loop(steps, limit, 1) == After(all, requested, Loop(steps, limit, page))
      decreases |rs| + 1 - page
    {
      var step := RequestPage(rs, w, page);
      LoopUnfold(steps, limit, page);
      if step.Halt? {
        AfterAfter(all, requested, [], [page], Fetch([], [], step.why));
        f := Fetch(all, requested + [page], step.why);
        return;
      }
      if CapHit(limit, page) {
        AfterAfter(all, requested, step.records, [page], Fetch([], [], PageCap));
        f := Fetch(all + step.records, requested + [page], PageCap);
        return;
      }
      AfterAfter(all, requested, step.records, [page], Loop(steps, limit, page + 1));
      all := all + step.records;
      requested := requested + [page];
      page := page + 1;
    }
  }

  /** Pages 1 .. n. */
  function Pages(n: nat): (ps: seq<int>)
    ensures |ps| == n && forall i :: 0 <= i < n ==> ps[i] == i + 1
  {
    seq(n, i requires 0 <= i < n => i + 1)
  }

  /** The page that ends the loop decides the whole result: if pages 1 ..
      p - 1 continue the loop and page p does not, then exactly pages 1 .. p
      are requested, the records are those of pages 1 .. p in order (page p
      adds its own only when the cap stopped the loop), and the stop reason
      is page p's. */
  lemma FirstStopDecides(rs: seq<Response>, w: Wrapper, limit: Option<int>, p: int)
    requires p >= 1
    requires forall q :: 1 <= q < p ==> Continues(Classify(rs, w), limit, q)
    requires !Continues(Classify(rs, w), limit, p)
    ensures var step := PageStep(w, PageAt(rs, p));
            Fetched(rs, w, limit)
            == Fetch(Taken(Classify(rs, w), 1, p + 1), Pages(p), if step.Halt? then step.why else PageCap)
  {
    var steps := Classify(rs, w);
    var f := Loop(steps, limit, 1);
    LoopCharacterized(steps, limit, 1);
    StepAtClassify(rs, w, p);
    assert f.requested == Pages(p);
  }

  /** Any status other than exactly 200 ends the loop at that page without
      raising, keeping the records of the pages before it. */
  lemma NonOkStatusStops(rs: seq<Response>, w: Wrapper, limit: Option<int>, p: int)
    requires p >= 1
    requires forall q :: 1 <= q < p ==> Continues(Classify(rs, w), limit, q)
    requires PageAt(rs, p).status != 200
    ensures Fetched(rs, w, limit) == Fetch(Taken(Classify(rs, w), 1, p), Pages(p), BadStatus(PageAt(rs, p).status))
  {
    StepAtClassify(rs, w, p);
    FirstStopDecides(rs, w, limit, p);
    TakenHaltTail(Classify(rs, w), 1, p);
  }

  /** A body `response.json()` cannot decode, or one that decodes to neither
      a list nor a dict (null, a boolean, a number, a string), ends the loop
      at that page, keeping the records of the pages before it. */
  lemma UnusableBodyStops(rs: seq<Response>, w: Wrapper, limit: Option<int>, p: int)
    requires p >= 1
    requires forall q :: 1 <= q < p ==> Continues(Classify(rs, w), limit, q)
    requires PageAt(rs, p).status == 200
    requires PageAt(rs, p).body.None? || (!PageAt(rs, p).body.value.List? && !PageAt(rs, p).body.value.Obj?)
    ensures Fetched(rs, w, limit)
            == Fetch(Taken(Classify(rs, w), 1, p), Pages(p),
                     if PageAt(rs, p).body.None? then BadJson else BadShape)
  {
    StepAtClassify(rs, w, p);
    FirstStopDecides(rs, w, limit, p);
    TakenHaltTail(Classify(rs, w), 1, p);
  }

  /** A falsy record set (an empty list, a null or empty `"data"` or
      `"content"`) ends the loop at that page and adds nothing. */
  lemma FalsyRecordsStop(rs: seq<Response>, w: Wrapper, limit: Option<int>, p: int)
    requires p >= 1
    requires forall q :: 1 <= q < p ==> Continues(Classify(rs, w), limit, q)
    requires PageAt(rs, p).status == 200 && PageAt(rs, p).body.Some?
    requires var t := Unwrap(w, PageAt(rs, p).body.value); t.Some? && !Truthy(t.value)
    ensures Fetched(rs, w, limit) == Fetch(Taken(Classify(rs, w), 1, p), Pages(p), NoRecords)
  {
    StepAtClassify(rs, w, p);
    FirstStopDecides(rs, w, limit, p);
    TakenHaltTail(Classify(rs, w), 1, p);
  }

  /** A halting last page adds nothing to the records. */
  lemma {:induction false} TakenHaltTail(steps: seq<Step>, from: int, p: int)
    requires from <= p
    requires StepAt(steps, p).Halt?
    ensures Taken(steps, from, p + 1) == Taken(steps, from, p)
    decreases p - from
  {
    if from < p {
      TakenHaltTail(steps, from + 1, p);
    } else {
      assert RecordsOf(StepAt(steps, p)) == [];
    }
  }

  /** With `DataOrWhole`, a non-empty dict without a `"data"` member is its
      own record set: `extend` appends its keys, so such a page never ends
      the loop by emptiness. */
  lemma DictWithoutDataYieldsKeys(fs: seq<Field>)
    requires |fs| > 0 && !HasKey(fs, "data")
    ensures PageStep(DataOrWhole, Response(200, Some(Obj(fs)))) == Take(KeyStrings(Keys(fs)))
    ensures |KeyStrings(Keys(fs))| > 0
  {
  }

  /** With `ContentOrEmpty`, a dict whose `"content"` is missing or null ends
      the loop by emptiness. */
  lemma MissingContentStops(fs: seq<Field>)
    requires !HasKey(fs, "content") || Get(fs, "content") == Some(Null)
    ensures PageStep(ContentOrEmpty, Response(200, Some(Obj(fs)))) == Halt(NoRecords)
  {
  }

  /** A 200 dict page whose envelope member (`"data"`, or `"content"` for
      time entries) is a non-empty list takes exactly that list's items. */
  lemma EnvelopePageTakesItems(w: Wrapper, fs: seq<Field>, xs: seq<Json>)
    requires Get(fs, EnvelopeKey(w)) == Some(List(xs)) && |xs| > 0
    ensures PageStep(w, Response(200, Some(Obj(fs)))) == Take(xs)
  {
  }

  /** In the loop, such a page contributes exactly those items: one
      enveloped page followed by the end of the data returns the list. */
  lemma EnvelopePageThenEnd(w: Wrapper, fs: seq<Field>, xs: seq<Json>)
    requires Get(fs, EnvelopeKey(w)) == Some(List(xs)) && |xs| > 0
    ensures Fetched([Response(200, Some(Obj(fs)))], w, None) == Fetch(xs, [1, 2], NoRecords)
  {
    var rs := [Response(200, Some(Obj(fs)))];
    EnvelopePageTakesItems(w, fs, xs);
    StepAtClassify(rs, w, 1);
    StepAtClassify(rs, w, 2);
    FirstStopDecides(rs, w, None, 2);
    assert Taken(Classify(rs, w), 1, 3) == xs + [] + [];
  }

  /** A cap n > 0 bounds the pages requested by n. */
  lemma PageCapBounds(rs: seq<Response>, w: Wrapper, n: int)
    requires n > 0
    ensures |Fetched(rs, w, Some(n)).requested| <= n
  {
    var steps := Classify(rs, w);
    LoopCharacterized(steps, Some(n), 1);
    assert !Continues(steps, Some(n), n);
  }

  /** When pages 1 .. n all yield records, a cap n > 0 stops the loop after
      page n, whose records are included. */
  lemma PageCapIncludesLastPage(rs: seq<Response>, w: Wrapper, n: int)
    requires n > 0
    requires forall q :: 1 <= q <= n ==> StepAt(Classify(rs, w), q).Take?
    ensures Fetched(rs, w, Some(n)) == Fetch(Taken(Classify(rs, w), 1, n + 1), Pages(n), PageCap)
  {
    var steps := Classify(rs, w);
    assert forall q :: 1 <= q < n ==> Continues(steps, Some(n), q);
    FirstStopDecides(rs, w, Some(n), n);
    StepAtClassify(rs, w, n);
  }

  /** A negative cap is truthy and below every page number: one page only. */
  lemma NegativeCapOnePage(rs: seq<Response>, w: Wrapper, n: int)
    requires n < 0
    ensures |Fetched(rs, w, Some(n)).requested| == 1
  {
    LoopCharacterized(Classify(rs, w), Some(n), 1);
  }

  /** A cap of 0 is falsy, hence no cap at all. */
  lemma {:induction false} ZeroCapIsNoCap(steps: seq<Step>, page: int)
    requires page >= 1
    decreases |steps| + 1 - page
    ensures Loop(steps, Some(0), page) == Loop(steps, None, page)
  {
    if StepAt(steps, page).Take? && page <= |steps| {
      ZeroCapIsNoCap(steps, page + 1);
    }
  }

  /** A first page of records followed by an empty page returns exactly the
      first page's records. */
  lemma RecordsThenEmptyPage(xs: seq<Json>, w: Wrapper)
    requires |xs| > 0
    ensures Fetched([Response(200, Some(List(xs))), Response(200, Some(List([])))], w, None)
            == Fetch(xs, [1, 2], NoRecords)
  {
    var rs := [Response(200, Some(List(xs))), Response(200, Some(List([])))];
    StepAtClassify(rs, w, 1);
    StepAtClassify(rs, w, 2);
    FirstStopDecides(rs, w, None, 2);
    assert Taken(Classify(rs, w), 1, 3) == xs + [] + [];
  }

  /** A server error on page 2 keeps page 1's records. */
  lemma ServerErrorKeepsFirstPage(xs: seq<Json>, body: Option<Json>, w: Wrapper, limit: Option<int>)
    requires |xs| > 0 && !CapHit(limit, 1)
    ensures Fetched([Response(200, Some(List(xs))), Response(500, body)], w, limit)
            == Fetch(xs, [1, 2], BadStatus(500))
  {
    var rs := [Response(200, Some(List(xs))), Response(500, body)];
    StepAtClassify(rs, w, 1);
    NonOkStatusStops(rs, w, limit, 2);
    assert Taken(Classify(rs, w), 1, 2) == xs + [];
  }
}
