/**
  The scan ledger read back as a dashboard: `ScanEvent.find({ student })` or
  `ScanEvent.find({ company })`, then `.sort({ scannedAt: -1 })` and
  `.limit(n)` (server/src/routes/studentRoutes.js, route `/:slug/dashboard`,
  and server/src/routes/companyRoutes.js, route `/dashboard`).

  The database gives no order to events with equal `scannedAt`; the model
  fixes one (an insertion sort that puts each event after the ones already
  placed with the same time, so ties come out in reverse input order), and
  nothing proved below depends on it.
 */
module Ledger {

  import opened Models

  /** The side of the ledger a dashboard reads: one student's events or one
      company's events. */
  datatype Party = OfStudent(student: ObjectId) | OfCompany(company: ObjectId)

  predicate Involves(e: ScanEvent, p: Party) {
    match p
    case OfStudent(s) => e.student == s
    case OfCompany(c) => e.company == c
  }

  /** The `find` filter: the events of `p`, in ledger order. Each event of `p`
      is kept as many times as it occurs and every other event is dropped. */
  function Where(es: seq<ScanEvent>, p: Party): (r: seq<ScanEvent>)
    ensures |r| <= |es|
    ensures forall k :: 0 <= k < |r| ==> Involves(r[k], p)
    ensures forall e :: multiset(r)[e] == if Involves(e, p) then multiset(es)[e] else 0
  {
    if es == [] then []
    else
      var rest := Where(es[..|es| - 1], p);
      var last := es[|es| - 1];
      assert es == es[..|es| - 1] + [last];
      if Involves(last, p) then rest + [last] else rest
  }

  /** Appending one event to the ledger adds it to the view of its own party
      and leaves the view of every other party as it was. */
  lemma WhereAppend(es: seq<ScanEvent>, e: ScanEvent, p: Party)
    ensures Where(es + [e], p) == Where(es, p) + (if Involves(e, p) then [e] else [])
  {
    assert (es + [e])[..|es + [e]| - 1] == es;
  }

  /** `.sort({ scannedAt: -1 })`: newest first. */
  predicate NewestFirst(es: seq<ScanEvent>) {
    forall i, j :: 0 <= i < j < |es| ==> es[i].scannedAt >= es[j].scannedAt
  }

  /** Where `e` goes in a newest-first list: before the first event that is
      strictly older, so that it follows every event at least as new. */
  function InsertionPoint(e: ScanEvent, es: seq<ScanEvent>): (i: nat)
    ensures i <= |es|
    ensures forall k :: 0 <= k < i ==> es[k].scannedAt >= e.scannedAt
    ensures i < |es| ==> es[i].scannedAt < e.scannedAt
  {
    if es == [] || es[0].scannedAt < e.scannedAt then 0
    else 1 + InsertionPoint(e, es[1..])
  }

  /** Placing `e` at its insertion point keeps the list newest first. */
  lemma {:induction false} InsertKeepsOrder(e: ScanEvent, es: seq<ScanEvent>)
    requires NewestFirst(es)
    ensures var i := InsertionPoint(e, es);
            NewestFirst(es[..i] + [e] + es[i..])
  {
    var i := InsertionPoint(e, es);
    var r := es[..i] + [e] + es[i..];
    forall a, b | 0 <= a < b < |r| ensures r[a].scannedAt >= r[b].scannedAt {
      InsertedAt(e, es, i, a);
      InsertedAt(e, es, i, b);
      if a < i && b > i {
        assert es[a].scannedAt >= es[b - 1].scannedAt;
      } else if a == i && b > i {
        assert es[i].scannedAt >= es[b - 1].scannedAt;
      }
    }
  }

  /** Position `k` of the list with `e` placed at `i`. */
  lemma InsertedAt(e: ScanEvent, es: seq<ScanEvent>, i: nat, k: nat)
    requires i <= |es| && k <= |es|
    ensures (es[..i] + [e] + es[i..])[k] == if k < i then es[k] else if k == i then e else es[k - 1]
  {
  }

  function Insert(e: ScanEvent, es: seq<ScanEvent>): (r: seq<ScanEvent>)
    requires NewestFirst(es)
    ensures |r| == |es| + 1
    ensures NewestFirst(r)
    ensures multiset(r) == multiset(es) + multiset{e}
  {
    var i := InsertionPoint(e, es);
    InsertKeepsOrder(e, es);
    InsertedCount(e, es, i);
    es[..i] + [e] + es[i..]
  }

  /** Placing `e` anywhere in a list adds `e` and nothing else. */
  lemma InsertedCount(e: ScanEvent, es: seq<ScanEvent>, i: nat)
    requires i <= |es|
    ensures |es[..i] + [e] + es[i..]| == |es| + 1
    ensures multiset(es[..i] + [e] + es[i..]) == multiset(es) + multiset{e}
  {
    assert es == es[..i] + es[i..];
  }

  /** The sort: the result is newest first and is a permutation of the input. */
  function SortNewestFirst(es: seq<ScanEvent>): (r: seq<ScanEvent>)
    ensures NewestFirst(r)
    ensures multiset(r) == multiset(es)
    ensures |r| == |es|
  {
    if es == [] then []
    else
      assert es == [es[0]] + es[1..];
      Insert(es[0], SortNewestFirst(es[1..]))
  }

  /** `.limit(n)`. */
  function Take(es: seq<ScanEvent>, n: nat): (r: seq<ScanEvent>)
    ensures |r| == if |es| <= n then |es| else n
    ensures r == es[..|r|]
  {
    if |es| <= n then es else es[..n]
  }

  /** The whole query: the events of `p`, newest first, at most `limit` of them. */
  function View(es: seq<ScanEvent>, p: Party, limit: nat): seq<ScanEvent> {
    Take(SortNewestFirst(Where(es, p)), limit)
  }

  /** What the sort leaves for `p` before the cut. */
  function Sorted(es: seq<ScanEvent>, p: Party): seq<ScanEvent> {
    SortNewestFirst(Where(es, p))
  }

  /** What a dashboard shows: at most `limit` events, as many as the party has
      up to the limit, newest first, a prefix of the party's events in sorted
      order, and none of the events left out is newer than one shown. */
  lemma {:induction false} ViewSpec(es: seq<ScanEvent>, p: Party, limit: nat)
    ensures var r := View(es, p, limit);
            && |r| <= limit
            && |r| == (if |Where(es, p)| <= limit then |Where(es, p)| else limit)
            && r == Sorted(es, p)[..|r|]
            && NewestFirst(r)
            && (forall j :: |r| <= j < |Sorted(es, p)| ==>
                  forall k :: 0 <= k < |r| ==> Sorted(es, p)[j].scannedAt <= r[k].scannedAt)
  {
    var s := Sorted(es, p);
    var r := View(es, p, limit);
    assert forall k :: 0 <= k < |r| ==> r[k] == s[k];
  }

  /** Only the party's own events are shown, each of them an event of the
      ledger, and the view loses nothing when the party has no more than
      `limit` events. */
  lemma {:induction false} ViewContents(es: seq<ScanEvent>, p: Party, limit: nat)
    ensures var r := View(es, p, limit);
            && (forall k :: 0 <= k < |r| ==> Involves(r[k], p) && r[k] in es)
            && multiset(r) <= multiset(Where(es, p))
            && (|Where(es, p)| <= limit ==> multiset(r) == multiset(Where(es, p)))
  {
    var s := Sorted(es, p);
    var r := View(es, p, limit);
    var w := Where(es, p);
    assert s == r + s[|r|..];
    assert multiset(s) == multiset(r) + multiset(s[|r|..]);
    forall k | 0 <= k < |r| ensures Involves(r[k], p) && r[k] in es {
      assert r[k] in multiset(s);
      assert r[k] in multiset(w);
      assert multiset(w)[r[k]] == multiset(es)[r[k]];
    }
  }

  /** The three facts every dashboard relies on, in one place. */
  lemma ViewBasics(es: seq<ScanEvent>, p: Party, limit: nat)
    ensures var r := View(es, p, limit);
            && |r| <= limit && NewestFirst(r)
            && (forall k :: 0 <= k < |r| ==> Involves(r[k], p) && r[k] in es)
  {
    ViewSpec(es, p, limit);
    ViewContents(es, p, limit);
  }
}
