/**
 * The message store behind the save and list endpoints: saving appends one
 * record holding the whitespace-stripped text and the time of the save;
 * listing returns the newest records first, at most one page of them.
 * The store is an immutable sequence in insertion order, and the clock
 * reading is a parameter.
 */
module Messages {
  import PyStrip

  /** The most records one listing returns. */
  const PageSize: nat := 20

  /** The form field holding the text to save. */
  const TextField: string := "message_text"

  /** One stored message: its text and the time it was saved. */
  datatype Record = Record(text: string, createdAt: int)

  /** The parts of an HTTP request the save endpoint reads. */
  datatype Request = Request(verb: string, form: map<string, string>)

  datatype Status = Success | Error | Info

  /** The JSON status field and the HTTP status code of a response. */
  datatype Response = Response(status: Status, code: int)

  /** A response together with the store as it is after the request. */
  datatype Saved = Saved(response: Response, store: seq<Record>)

  /** The posted text, or the empty string when the field is absent. */
  function SubmittedText(req: Request): string
  {
    if TextField in req.form then req.form[TextField] else ""
  }

  /**
   * The save endpoint. A POST whose text is blank after stripping is
   * refused with 400 and a POST with text adds exactly one record and
   * answers 201; any other method answers 200. Only a 201 changes the
   * store, and then only by appending the stripped text stamped `now`.
   */
  function SaveMessage(store: seq<Record>, req: Request, now: int): (s: Saved)
    ensures s.response.code == 201 <==> req.verb == "POST" && !PyStrip.AllSpace(SubmittedText(req))
    ensures s.response.code == 400 <==> req.verb == "POST" && PyStrip.AllSpace(SubmittedText(req))
    ensures s.response.code == 200 <==> req.verb != "POST"
    ensures s.response.code == 201 ==> s.store == store + [Record(PyStrip.Strip(SubmittedText(req)), now)]
    ensures s.response.code != 201 ==> s.store == store
  {
    if req.verb == "POST" then
      var text := PyStrip.Strip(SubmittedText(req));
      if text != "" then Saved(Response(Success, 201), store + [Record(text, now)])
      else Saved(Response(Error, 400), store)
    else
      Saved(Response(Info, 200), store)
  }

  /** Creation times never increase along `s`. */
  predicate NewestFirst(s: seq<Record>)
  {
    forall i, j :: 0 <= i < j < |s| ==> s[i].createdAt >= s[j].createdAt
  }

  /** Puts `x` into a newest-first sequence ahead of every record no newer than it. */
  function Insert(x: Record, s: seq<Record>): (r: seq<Record>)
    requires NewestFirst(s)
    ensures NewestFirst(r)
    ensures |r| == |s| + 1
    ensures multiset(r) == multiset(s) + multiset{x}
    ensures r[0] == x || (|s| > 0 && r[0] == s[0])
  {
    if |s| == 0 || x.createdAt >= s[0].createdAt then
      PrependNewest(x, s);
      [x] + s
    else
      var rest := Insert(x, s[1..]);
      assert s == [s[0]] + s[1..];
      PrependNewest(s[0], rest);
      [s[0]] + rest
  }

  /** A record no older than the head of a newest-first sequence may go in front of it. */
  lemma PrependNewest(y: Record, t: seq<Record>)
    requires NewestFirst(t)
    requires |t| > 0 ==> y.createdAt >= t[0].createdAt
    ensures NewestFirst([y] + t)
  {
  }

  /** The store ordered by creation time, newest first (`order_by('-created_at')`). */
  function SortNewestFirst(s: seq<Record>): (r: seq<Record>)
    ensures NewestFirst(r)
    ensures |r| == |s|
    ensures multiset(r) == multiset(s)
  {
    if |s| == 0 then []
    else
      assert s == s[..|s| - 1] + [s[|s| - 1]];
      Insert(s[|s| - 1], SortNewestFirst(s[..|s| - 1]))
  }

  function Min(a: nat, b: nat): nat
  {
    if a <= b then a else b
  }

  /**
   * The list endpoint: the `PageSize` newest records, newest first, each
   * as stored. Every record left out is no newer than any record shown.
   * Records saved at the same instant may come in any order.
   */
  function ListMessages(store: seq<Record>): (r: seq<Record>)
    ensures |r| == Min(PageSize, |store|)
    ensures NewestFirst(r)
    ensures multiset(r) <= multiset(store)
    ensures forall x :: x in multiset(store) - multiset(r) ==>
              forall i :: 0 <= i < |r| ==> x.createdAt <= r[i].createdAt
  {
    var sorted := SortNewestFirst(store);
    var k := Min(PageSize, |store|);
    TopOfSorted(sorted, k);
    sorted[..k]
  }

  /** The head of a newest-first sequence is no older than anything in the rest. */
  lemma TopOfSorted(s: seq<Record>, k: nat)
    requires NewestFirst(s) && k <= |s|
    ensures NewestFirst(s[..k])
    ensures multiset(s[..k]) <= multiset(s)
    ensures forall x :: x in multiset(s) - multiset(s[..k]) ==>
              forall i :: 0 <= i < k ==> x.createdAt <= s[i].createdAt
  {
    assert forall i :: 0 <= i < k ==> s[..k][i] == s[i];
    MultisetSplit(s, k);
    forall x | x in multiset(s) - multiset(s[..k])
      ensures forall i :: 0 <= i < k ==> x.createdAt <= s[i].createdAt
    {
      RestNoNewer(s, k, x);
    }
  }

  lemma MultisetSplit(s: seq<Record>, k: nat)
    requires k <= |s|
    ensures multiset(s[..k]) <= multiset(s)
    ensures multiset(s) - multiset(s[..k]) == multiset(s[k..])
  {
    assert s == s[..k] + s[k..];
  }

  lemma RestNoNewer(s: seq<Record>, k: nat, x: Record)
    requires NewestFirst(s) && k <= |s|
    requires x in multiset(s[k..])
    ensures forall i :: 0 <= i < k ==> x.createdAt <= s[i].createdAt
  {
    var j :| 0 <= j < |s[k..]| && s[k..][j] == x;
    assert s[k + j] == x;
  }

  /** Every listed record is a stored record, text and timestamp unchanged. */
  lemma ListedAreStored(store: seq<Record>)
    ensures forall i :: 0 <= i < |ListMessages(store)| ==> ListMessages(store)[i] in store
  {
    var r := ListMessages(store);
    forall i | 0 <= i < |r|
      ensures r[i] in store
    {
      assert r[i] in multiset(r);
    }
  }

  /** Records stored strictly in order of their creation times. */
  predicate Chronological(s: seq<Record>)
  {
    forall i, j :: 0 <= i < j < |s| ==> s[i].createdAt < s[j].createdAt
  }

  /** `s` in reverse order. */
  function Reverse(s: seq<Record>): (r: seq<Record>)
    ensures |r| == |s|
    ensures forall i :: 0 <= i < |s| ==> r[i] == s[|s| - 1 - i]
  {
    if |s| == 0 then [] else [s[|s| - 1]] + Reverse(s[..|s| - 1])
  }

  /** Sorting a chronological store reverses it. */
  lemma {:induction false} SortChronological(s: seq<Record>)
    requires Chronological(s)
    ensures SortNewestFirst(s) == Reverse(s)
  {
    if |s| > 0 {
      var prefix := s[..|s| - 1];
      ChronologicalPrefix(s);
      SortChronological(prefix);
      assert |prefix| > 0 ==> Reverse(prefix)[0] == s[|s| - 2];
      SortAddsNewest(s);
    }
  }

  lemma ChronologicalPrefix(s: seq<Record>)
    requires Chronological(s) && |s| > 0
    ensures Chronological(s[..|s| - 1])
  {
    assert forall i :: 0 <= i < |s| - 1 ==> s[..|s| - 1][i] == s[i];
  }

  /** The latest record of a chronological store sorts to the front. */
  lemma SortAddsNewest(s: seq<Record>)
    requires Chronological(s) && |s| > 0
    requires |s| > 1 ==> SortNewestFirst(s[..|s| - 1])[0] == s[|s| - 2]
    ensures SortNewestFirst(s) == [s[|s| - 1]] + SortNewestFirst(s[..|s| - 1])
  {
    InsertNewest(s[|s| - 1], SortNewestFirst(s[..|s| - 1]));
  }

  /** A record at least as new as the head of a newest-first sequence goes in front. */
  lemma InsertNewest(x: Record, t: seq<Record>)
    requires NewestFirst(t)
    requires |t| == 0 || x.createdAt >= t[0].createdAt
    ensures Insert(x, t) == [x] + t
  {
  }

  /**
   * When records were saved at strictly increasing times, the listing is
   * exactly the most recent saves, latest first.
   */
  lemma ListChronological(store: seq<Record>)
    requires Chronological(store)
    ensures forall i :: 0 <= i < |ListMessages(store)| ==> ListMessages(store)[i] == store[|store| - 1 - i]
  {
    SortChronological(store);
  }

  /**
   * Saving text at a time later than every stored record and then listing
   * shows that text, stripped, at the top of the list.
   */
  lemma SaveThenListShowsNewest(store: seq<Record>, req: Request, now: int)
    requires req.verb == "POST" && !PyStrip.AllSpace(SubmittedText(req))
    requires forall k :: 0 <= k < |store| ==> store[k].createdAt < now
    ensures |ListMessages(SaveMessage(store, req, now).store)| > 0
    ensures ListMessages(SaveMessage(store, req, now).store)[0] == Record(PyStrip.Strip(SubmittedText(req)), now)
  {
    var x := Record(PyStrip.Strip(SubmittedText(req)), now);
    var after := store + [x];
    assert x in multiset(after);
  }
}
