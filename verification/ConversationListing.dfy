/**
 * Paged listings: the per-directory index (src/conversation/index-cache.ts) and the locator
 * (src/conversation/locator.ts).
 */
module ConversationListing {
  import opened Prelude
  import opened ConversationTypes
  import opened ConversationFiles

  // ------------------------------------------------------------------ newest first

  type Key = Summary -> int

  /** Puts `s` before the first summary that is not newer. */
  function Place(key: Key, s: Summary, sorted: seq<Summary>): seq<Summary> {
    if sorted == [] || key(s) >= key(sorted[0]) then [s] + sorted else [sorted[0]] + Place(key, s, sorted[1..])
  }

  /** The summaries newest first, those of equal age in their given order. */
  function NewestFirst(key: Key, items: seq<Summary>): seq<Summary> {
    if items == [] then [] else Place(key, items[0], NewestFirst(key, items[1..]))
  }

  ghost predicate Descending(key: Key, items: seq<Summary>) {
    forall i, j :: 0 <= i < j < |items| ==> key(items[i]) >= key(items[j])
  }

  /** Those of age `k`, in the order they stand in. */
  function OfAge(key: Key, items: seq<Summary>, k: int): seq<Summary> {
    if items == [] then []
    else if key(items[0]) == k then [items[0]] + OfAge(key, items[1..], k)
    else OfAge(key, items[1..], k)
  }

  lemma {:induction false} PlaceSorts(key: Key, s: Summary, sorted: seq<Summary>)
    requires Descending(key, sorted)
    ensures Descending(key, Place(key, s, sorted))
    ensures forall x :: x in Place(key, s, sorted) <==> x == s || x in sorted
  {
    if sorted != [] && key(s) < key(sorted[0]) {
      PlaceSorts(key, s, sorted[1..]);
      var rest := Place(key, s, sorted[1..]);
      assert sorted == [sorted[0]] + sorted[1..];
      forall j | 0 <= j < |rest| ensures key(sorted[0]) >= key(rest[j]) {
        assert rest[j] in rest;
      }
    } else {
      assert forall j :: 0 < j < |sorted| ==> key(sorted[0]) >= key(sorted[j]);
    }
  }

  lemma {:induction false} PlaceKeepsOrder(key: Key, s: Summary, sorted: seq<Summary>, k: int)
    requires Descending(key, sorted)
    ensures OfAge(key, Place(key, s, sorted), k) == OfAge(key, [s] + sorted, k)
    ensures multiset(Place(key, s, sorted)) == multiset([s] + sorted)
  {
    assert ([s] + sorted)[1..] == sorted;
    if sorted != [] && key(s) < key(sorted[0]) {
      PlaceKeepsOrder(key, s, sorted[1..], k);
      assert ([s] + sorted[1..])[1..] == sorted[1..];
      var rest := Place(key, s, sorted[1..]);
      assert ([sorted[0]] + rest)[1..] == rest;
      assert sorted == [sorted[0]] + sorted[1..];
    }
  }

  /** The sort is a stable sort: descending, a permutation, and equal ages keep their order. */
  lemma {:induction false} NewestFirstSorts(key: Key, items: seq<Summary>)
    ensures Descending(key, NewestFirst(key, items))
    ensures multiset(NewestFirst(key, items)) == multiset(items)
  {
    if items != [] {
      NewestFirstSorts(key, items[1..]);
      PlaceSorts(key, items[0], NewestFirst(key, items[1..]));
      PlaceKeepsOrder(key, items[0], NewestFirst(key, items[1..]), 0);
      assert items == [items[0]] + items[1..];
    }
  }

  lemma {:induction false} NewestFirstIsStable(key: Key, items: seq<Summary>, k: int)
    ensures OfAge(key, NewestFirst(key, items), k) == OfAge(key, items, k)
  {
    if items != [] {
      var rest := NewestFirst(key, items[1..]);
      NewestFirstSorts(key, items[1..]);
      NewestFirstIsStable(key, items[1..], k);
      PlaceKeepsOrder(key, items[0], rest, k);
      assert ([items[0]] + rest)[1..] == rest;
    }
  }

  // ------------------------------------------------------------------ one page

  datatype PageResult = PageResult(conversations: seq<Summary>, nextCursor: Option<string>, totalCount: nat)

  /** The position of the first summary with this id. */
  function FindId(items: seq<Summary>, id: string): (r: Option<nat>)
    ensures r.Some? ==> r.value < |items| && items[r.value].id == id
    ensures r.None? ==> forall i :: 0 <= i < |items| ==> items[i].id != id
  {
    if items == [] then None
    else if items[0].id == id then Some(0)
    else match FindId(items[1..], id)
      case None => assert forall i :: 0 < i < |items| ==> items[i] == items[1..][i - 1]; None
      case Some(n) => Some(n + 1)
  }

  /** What is left after the cursor; an unknown cursor leaves everything. */
  function AfterCursor(items: seq<Summary>, cursor: Option<string>): seq<Summary> {
    match cursor
    case None => items
    case Some(id) =>
      match FindId(items, id)
      case None => items
      case Some(n) => items[n + 1..]
  }

  function PageOf(sorted: seq<Summary>, cursor: Option<string>, limit: nat): PageResult {
    var rest := AfterCursor(sorted, cursor);
    var page := if |rest| > limit then rest[..limit] else rest;
    PageResult(page,
               if |page| == limit && |rest| > limit && page != [] then Some(page[|page| - 1].id) else None,
               |sorted|)
  }

  // ------------------------------------------------------------------ following the cursor

  predicate UniqueIds(items: seq<Summary>) {
    forall i, j :: 0 <= i < j < |items| ==> items[i].id != items[j].id
  }

  /** The pages a client reads from `cursor` until there is no next one. */
  predicate Traversal(sorted: seq<Summary>, cursor: Option<string>, limit: nat, pages: seq<PageResult>)
    decreases |pages|
  {
    && pages != []
    && pages[0] == PageOf(sorted, cursor, limit)
    && match pages[0].nextCursor
       case None => |pages| == 1
       case Some(id) => Traversal(sorted, Some(id), limit, pages[1..])
  }

  function Read(pages: seq<PageResult>): seq<Summary> {
    if pages == [] then [] else pages[0].conversations + Read(pages[1..])
  }

  /** The cursor after position `i` leaves exactly what follows it. */
  lemma CursorAt(sorted: seq<Summary>, i: nat)
    requires UniqueIds(sorted) && i < |sorted|
    ensures AfterCursor(sorted, Some(sorted[i].id)) == sorted[i + 1..]
  {
    var n := FindId(sorted, sorted[i].id).value;
    assert sorted[n].id == sorted[i].id;
  }

  lemma NextPage(sorted: seq<Summary>, cursor: Option<string>, limit: nat)
    requires UniqueIds(sorted) && limit >= 1
    requires |AfterCursor(sorted, cursor)| > limit
    ensures var rest, page := AfterCursor(sorted, cursor), PageOf(sorted, cursor, limit);
            && page.conversations == rest[..limit]
            && page.nextCursor.Some?
            && AfterCursor(sorted, page.nextCursor) == rest[limit..]
  {
    var rest := AfterCursor(sorted, cursor);
    var at := |sorted| - |rest|;
    hide UniqueIds;
    assert rest == sorted[at..];
    var last := at + limit - 1;
    CursorAt(sorted, last);
    assert rest[..limit][limit - 1] == sorted[last];
    assert rest[limit..] == sorted[last + 1..];
    hide AfterCursor;
  }

  /** Every traversal, however the client got it, reads what is left exactly once, in order. */
  lemma {:induction false} TraversalReadsRest(
    sorted: seq<Summary>, cursor: Option<string>, limit: nat, pages: seq<PageResult>)
    requires UniqueIds(sorted) && limit >= 1 && Traversal(sorted, cursor, limit, pages)
    ensures Read(pages) == AfterCursor(sorted, cursor)
    decreases |pages|
  {
    hide AfterCursor, UniqueIds;
    var rest := AfterCursor(sorted, cursor);
    if |rest| > limit {
      NextPage(sorted, cursor, limit);
      TraversalReadsRest(sorted, pages[0].nextCursor, limit, pages[1..]);
      assert rest == rest[..limit] + rest[limit..];
    } else {
      assert Read(pages) == rest + Read(pages[1..]) && pages[1..] == [];
    }
  }

  /** Following the cursor comes to an end. */
  lemma {:induction false} TraversalEnds(
    sorted: seq<Summary>, cursor: Option<string>, limit: nat) returns (pages: seq<PageResult>)
    requires UniqueIds(sorted) && limit >= 1
    ensures Traversal(sorted, cursor, limit, pages)
    decreases |AfterCursor(sorted, cursor)|
  {
    var page := PageOf(sorted, cursor, limit);
    if |AfterCursor(sorted, cursor)| > limit {
      NextPage(sorted, cursor, limit);
      var more := TraversalEnds(sorted, page.nextCursor, limit);
      pages := [page] + more;
      assert pages[1..] == more;
    } else {
      pages := [page];
    }
  }

  // ------------------------------------------------------------------ what is listed

  /** The entries that pass, in their order. */
  function Matching(keep: Summary -> bool, items: seq<Summary>): seq<Summary> {
    if items == [] then []
    else if keep(items[0]) then [items[0]] + Matching(keep, items[1..])
    else Matching(keep, items[1..])
  }

  function Listed(keep: Summary -> bool, key: Key, items: seq<Summary>): seq<Summary> {
    NewestFirst(key, Matching(keep, items))
  }

  lemma {:induction false} MatchingMembers(keep: Summary -> bool, items: seq<Summary>)
    ensures forall x :: x in Matching(keep, items) <==> x in items && keep(x)
    ensures UniqueIds(items) ==> UniqueIds(Matching(keep, items))
  {
    if items != [] {
      MatchingMembers(keep, items[1..]);
      var rest := Matching(keep, items[1..]);
      assert items == [items[0]] + items[1..];
      if UniqueIds(items) {
        forall j | 0 <= j < |rest| ensures rest[j].id != items[0].id {
          assert rest[j] in items[1..];
          var m :| 0 <= m < |items| - 1 && items[1..][m] == rest[j];
          assert items[m + 1] == rest[j];
        }
      }
    }
  }

  lemma {:induction false} PlaceUnique(key: Key, s: Summary, sorted: seq<Summary>)
    requires UniqueIds(sorted) && forall i :: 0 <= i < |sorted| ==> sorted[i].id != s.id
    ensures UniqueIds(Place(key, s, sorted))
    ensures forall i :: 0 <= i < |Place(key, s, sorted)| ==>
              Place(key, s, sorted)[i] == s || Place(key, s, sorted)[i] in sorted
  {
    if sorted != [] && key(s) < key(sorted[0]) {
      PlaceUnique(key, s, sorted[1..]);
      var rest := Place(key, s, sorted[1..]);
      forall j | 0 <= j < |rest| ensures rest[j].id != sorted[0].id {
        if rest[j] != s {
          var m :| 0 <= m < |sorted| - 1 && sorted[1..][m] == rest[j];
          assert sorted[m + 1] == rest[j];
        }
      }
    }
  }

  lemma {:induction false} NewestFirstUnique(key: Key, items: seq<Summary>)
    requires UniqueIds(items)
    ensures UniqueIds(NewestFirst(key, items))
  {
    if items != [] {
      var rest := NewestFirst(key, items[1..]);
      NewestFirstUnique(key, items[1..]);
      NewestFirstSorts(key, items[1..]);
      forall i | 0 <= i < |rest| ensures rest[i].id != items[0].id {
        assert rest[i] in multiset(rest) && rest[i] in multiset(items[1..]);
        var m :| 0 <= m < |items| - 1 && items[1..][m] == rest[i];
        assert items[m + 1] == rest[i];
      }
      PlaceUnique(key, items[0], rest);
    }
  }

  /**
   * Paging is a partition: over a fixed set of entries with distinct ids, any filter, either sort key
   * and any limit of at least one, following the cursor ends and reads every matching entry exactly
   * once, newest first.
   */
  lemma PagingIsPartition(keep: Summary -> bool, key: Key, items: seq<Summary>, limit: nat)
    returns (pages: seq<PageResult>)
    requires UniqueIds(items) && limit >= 1
    ensures Traversal(Listed(keep, key, items), None, limit, pages)
    ensures Read(pages) == Listed(keep, key, items)
    ensures Descending(key, Read(pages)) && multiset(Read(pages)) == multiset(Matching(keep, items))
  {
    var sorted := Listed(keep, key, items);
    MatchingMembers(keep, items);
    NewestFirstSorts(key, Matching(keep, items));
    NewestFirstUnique(key, Matching(keep, items));
    pages := TraversalEnds(sorted, None, limit);
    TraversalReadsRest(sorted, None, limit, pages);
  }

  // ------------------------------------------------------------------ the per-directory index

  /** An insertion-ordered map: a summary replaces the one with its id, or goes last. */
  function Put(entries: seq<Summary>, s: Summary): seq<Summary> {
    match FindId(entries, s.id)
    case None => entries + [s]
    case Some(n) => entries[n := s]
  }

  /** The index of a directory read in this order. */
  function IndexOf(price: Pricing, files: seq<File>): seq<Summary> {
    if files == [] then []
    else
      var before := IndexOf(price, files[..|files| - 1]);
      match SummaryOf(price, files[|files| - 1])
      case None => before
      case Some(s) => Put(before, s)
  }

  lemma PutUnique(entries: seq<Summary>, s: Summary)
    requires UniqueIds(entries)
    ensures UniqueIds(Put(entries, s))
  {
  }

  lemma {:induction false} IndexUnique(price: Pricing, files: seq<File>)
    ensures UniqueIds(IndexOf(price, files))
  {
    if files != [] {
      IndexUnique(price, files[..|files| - 1]);
      var s := SummaryOf(price, files[|files| - 1]);
      if s.Some? {
        PutUnique(IndexOf(price, files[..|files| - 1]), s.value);
      }
    }
  }

  class ConversationIndex {
    var entries: seq<Summary>
    var populated: bool

    constructor ()
      ensures entries == [] && !populated
    {
      entries, populated := [], false;
    }

    /** Scans the directory unless the index is already populated. */
    method Populate(price: Pricing, files: seq<File>)
      modifies this
      ensures populated
      ensures entries == if old(populated) then old(entries) else IndexOf(price, files)
    {
      if populated {
        return;
      }
      entries := [];
      for i := 0 to |files|
        invariant !populated
        invariant entries == IndexOf(price, files[..i])
      {
        assert files[..i + 1][..i] == files[..i];
        var parsed := ParseFileHeader(price, files[i]);
        if parsed.Some? {
          entries := Put(entries, parsed.value);
        }
      }
      assert files[..|files|] == files;
      populated := true;
    }

    method Invalidate()
      modifies this`populated
      ensures !populated
    {
      populated := false;
    }

    method Remove(id: string)
      modifies this`entries
      ensures entries == Matching((s: Summary) => s.id != id, old(entries))
    {
      entries := Matching((s: Summary) => s.id != id, entries);
    }

    /** One page of the entries that pass, newest first. */
    method List(keep: Summary -> bool, key: Key, cursor: Option<string>, limit: nat) returns (r: PageResult)
      ensures r == PageOf(Listed(keep, key, entries), cursor, limit)
    {
      var items := NewestFirst(key, Matching(keep, entries));
      var totalCount := |items|;
      if cursor.Some? {
        var idx := FindId(items, cursor.value);
        if idx.Some? {
          items := items[idx.value + 1..];
        }
      }
      var page := if |items| > limit then items[..limit] else items;
      var next := if |page| == limit && |items| > limit && page != [] then Some(page[|page| - 1].id) else None;
      r := PageResult(page, next, totalCount);
    }
  }

  /** However a directory reads, its index pages as a partition. */
  lemma IndexPagesPartition(price: Pricing, files: seq<File>, keep: Summary -> bool, key: Key, limit: nat)
    returns (pages: seq<PageResult>)
    requires limit >= 1
    ensures Traversal(Listed(keep, key, IndexOf(price, files)), None, limit, pages)
    ensures Read(pages) == Listed(keep, key, IndexOf(price, files))
  {
    IndexUnique(price, files);
    pages := PagingIsPartition(keep, key, IndexOf(price, files), limit);
  }

  // ------------------------------------------------------------------ the locator

  /** A conversation and the workspace whose directory holds it. */
  datatype Located = Located(wsId: string, summary: Summary)

  function Summaries(entries: seq<Located>): (r: seq<Summary>)
    ensures |r| == |entries| && forall i :: 0 <= i < |r| ==> r[i] == entries[i].summary
  {
    if entries == [] then [] else [entries[0].summary] + Summaries(entries[1..])
  }

  /** The summaries of one workspace. */
  function InWorkspace(entries: seq<Located>, wsId: string): seq<Summary> {
    if entries == [] then []
    else if entries[0].wsId == wsId then [entries[0].summary] + InWorkspace(entries[1..], wsId)
    else InWorkspace(entries[1..], wsId)
  }

  lemma {:induction false} InWorkspaceFrom(entries: seq<Located>, wsId: string, k: nat) returns (i: nat)
    requires k < |InWorkspace(entries, wsId)|
    ensures i < |entries| && entries[i] == Located(wsId, InWorkspace(entries, wsId)[k])
  {
    if entries[0].wsId == wsId && k == 0 {
      i := 0;
    } else {
      i := InWorkspaceFrom(entries[1..], wsId, if entries[0].wsId == wsId then k - 1 else k);
      i := i + 1;
    }
  }

  lemma {:induction false} InWorkspaceUnique(entries: seq<Located>, wsId: string)
    requires UniqueIds(Summaries(entries))
    ensures UniqueIds(InWorkspace(entries, wsId))
  {
    if entries != [] {
      var rest := InWorkspace(entries[1..], wsId);
      assert Summaries(entries)[1..] == Summaries(entries[1..]);
      InWorkspaceUnique(entries[1..], wsId);
      forall k | 0 <= k < |rest| ensures rest[k].id != entries[0].summary.id {
        var i := InWorkspaceFrom(entries[1..], wsId, k);
        assert Summaries(entries)[i + 1] == rest[k] && Summaries(entries)[0] == entries[0].summary;
      }
    }
  }

  class ConversationLocator {
    var entries: seq<Located>
    var populated: bool

    constructor ()
      ensures entries == [] && !populated
    {
      entries, populated := [], false;
    }

    method Invalidate()
      modifies this`populated
      ensures !populated
    {
      populated := false;
    }

    /** Reads every file under a workspace path; one with no workspace in its path is skipped. */
    method EnsurePopulated(price: Pricing, files: seq<(Option<string>, File)>)
      requires UniqueIds(Summaries(entries))
      modifies this
      ensures populated && UniqueIds(Summaries(entries))
      ensures old(populated) ==> entries == old(entries)
      ensures !old(populated) ==> entries == LocatedIn(price, files)
    {
      if populated {
        return;
      }
      entries := [];
      for i := 0 to |files|
        invariant !populated
        invariant entries == LocatedIn(price, files[..i]) && UniqueIds(Summaries(entries))
      {
        assert files[..i + 1][..i] == files[..i];
        if files[i].0.Some? {
          var parsed := ParseFileHeader(price, files[i].1);
          if parsed.Some? {
            PutLocatedUnique(entries, Located(files[i].0.value, parsed.value));
            entries := PutLocated(entries, Located(files[i].0.value, parsed.value));
          }
        }
      }
      assert files[..|files|] == files;
      populated := true;
    }

    /** One page of one workspace's entries that pass, newest first. */
    method List(workspaceId: string, keep: Summary -> bool, key: Key, cursor: Option<string>, limit: nat)
      returns (r: PageResult)
      ensures r == PageOf(Listed(keep, key, InWorkspace(entries, workspaceId)), cursor, limit)
    {
      var summaries := NewestFirst(key, Matching(keep, InWorkspace(entries, workspaceId)));
      var totalCount := |summaries|;
      if cursor.Some? {
        var idx := FindId(summaries, cursor.value);
        if idx.Some? {
          summaries := summaries[idx.value + 1..];
        }
      }
      var page := if |summaries| > limit then summaries[..limit] else summaries;
      var next := if |page| == limit && |summaries| > limit && page != [] then Some(page[|page| - 1].id) else None;
      r := PageResult(page, next, totalCount);
    }
  }

  function PutLocated(entries: seq<Located>, e: Located): seq<Located> {
    match FindId(Summaries(entries), e.summary.id)
    case None => entries + [e]
    case Some(n) => entries[n := e]
  }

  lemma PutLocatedUnique(entries: seq<Located>, e: Located)
    requires UniqueIds(Summaries(entries))
    ensures UniqueIds(Summaries(PutLocated(entries, e)))
  {
    var put := Summaries(PutLocated(entries, e));
    PutUnique(Summaries(entries), e.summary);
    assert put == Put(Summaries(entries), e.summary);
  }

  function LocatedIn(price: Pricing, files: seq<(Option<string>, File)>): seq<Located> {
    if files == [] then []
    else
      var before := LocatedIn(price, files[..|files| - 1]);
      var last := files[|files| - 1];
      if last.0.None? then before
      else match SummaryOf(price, last.1)
        case None => before
        case Some(s) => PutLocated(before, Located(last.0.value, s))
  }

  lemma {:induction false} LocatedUnique(price: Pricing, files: seq<(Option<string>, File)>)
    ensures UniqueIds(Summaries(LocatedIn(price, files)))
  {
    if files != [] {
      LocatedUnique(price, files[..|files| - 1]);
      var last := files[|files| - 1];
      var s := SummaryOf(price, last.1);
      if last.0.Some? && s.Some? {
        PutLocatedUnique(LocatedIn(price, files[..|files| - 1]), Located(last.0.value, s.value));
      }
    }
  }

  /** A located file with a summary of this id. */
  predicate Shadows(price: Pricing, file: (Option<string>, File), id: string) {
    file.0.Some? && SummaryOf(price, file.1).Some? && SummaryOf(price, file.1).value.id == id
  }

  /** File `i` is of the workspace and has this summary, and no later one takes its id. */
  ghost predicate Stands(price: Pricing, files: seq<(Option<string>, File)>, wsId: string, s: Summary, i: nat)
    requires i < |files|
  {
    && files[i].0 == Some(wsId) && SummaryOf(price, files[i].1) == Some(s)
    && forall j :: i < j < |files| ==> !Shadows(price, files[j], s.id)
  }

  lemma {:induction false} PutLocatedMembers(entries: seq<Located>, e: Located, x: Located)
    requires UniqueIds(Summaries(entries))
    ensures x in PutLocated(entries, e) <==> x == e || (x in entries && x.summary.id != e.summary.id)
  {
    var at, put, ss := FindId(Summaries(entries), e.summary.id), PutLocated(entries, e), Summaries(entries);
    assert put[if at.Some? then at.value else |entries|] == e;
    if x in entries {
      var k :| 0 <= k < |entries| && entries[k] == x;
      assert ss[k] == x.summary;
      if x.summary.id != e.summary.id {
        assert put[k] == x;
      }
    }
    if x in put && x != e {
      var k :| 0 <= k < |put| && put[k] == x;
      assert entries[k] == x && ss[k] == x.summary;
    }
  }

  /** The entries are what stands: every file of a workspace, but for those whose id a later located file takes. */
  lemma {:induction false} LocatedStands(price: Pricing, files: seq<(Option<string>, File)>, wsId: string, s: Summary)
    ensures Located(wsId, s) in LocatedIn(price, files) <==>
            exists i :: 0 <= i < |files| && Stands(price, files, wsId, s, i)
  {
    if files != [] {
      var n := |files| - 1;
      var init, last := files[..n], files[n];
      LocatedStands(price, init, wsId, s);
      LastFileStands(price, files, wsId, s);
      LocatedUnique(price, init);
      hide Stands, SummaryOf;
      if last.0.Some? && SummaryOf(price, last.1).Some? {
        var put := Located(last.0.value, SummaryOf(price, last.1).value);
        PutLocatedMembers(LocatedIn(price, init), put, Located(wsId, s));
      }
    }
  }

  /** What the last file changes about what stands. */
  lemma {:induction false} LastFileStands(price: Pricing, files: seq<(Option<string>, File)>, wsId: string, s: Summary)
    requires files != []
    ensures var n := |files| - 1;
            (exists i :: 0 <= i < |files| && Stands(price, files, wsId, s, i)) <==>
              || (files[n].0 == Some(wsId) && SummaryOf(price, files[n].1) == Some(s))
              || ((exists i :: 0 <= i < n && Stands(price, files[..n], wsId, s, i)) && !Shadows(price, files[n], s.id))
  {
    var n := |files| - 1;
    hide SummaryOf;
    forall i | 0 <= i < n
      ensures Stands(price, files, wsId, s, i) <==>
              Stands(price, files[..n], wsId, s, i) && !Shadows(price, files[n], s.id)
    {
    }
    if files[n].0 == Some(wsId) && SummaryOf(price, files[n].1) == Some(s) {
      assert Stands(price, files, wsId, s, n);
    }
    if exists i :: 0 <= i < n && Stands(price, files[..n], wsId, s, i) {
      var i :| 0 <= i < n && Stands(price, files[..n], wsId, s, i);
      assert Stands(price, files, wsId, s, i) || Shadows(price, files[n], s.id);
    }
  }

  /**
   * The workspace wall: paging one workspace reads exactly its own matching conversations, once each,
   * and none that is stored under another: what it reads is what passes the filter among the summaries
   * of the workspace's files, less those whose id a later file takes.
   */
  lemma WorkspacePagesPartition(
    price: Pricing, files: seq<(Option<string>, File)>, wsId: string, keep: Summary -> bool, key: Key, limit: nat)
    returns (pages: seq<PageResult>)
    requires limit >= 1
    ensures var entries := LocatedIn(price, files);
            && Traversal(Listed(keep, key, InWorkspace(entries, wsId)), None, limit, pages)
            && Read(pages) == Listed(keep, key, InWorkspace(entries, wsId))
            && forall s :: s in Read(pages) <==>
                 keep(s) && exists i :: 0 <= i < |files| && Stands(price, files, wsId, s, i)
  {
    hide LocatedIn, Listed, Traversal, Read;
    var entries := LocatedIn(price, files);
    var mine := InWorkspace(entries, wsId);
    LocatedUnique(price, files);
    InWorkspaceUnique(entries, wsId);
    pages := PagingIsPartition(keep, key, mine, limit);
    forall s
      ensures s in Read(pages) <==> keep(s) && exists i :: 0 <= i < |files| && Stands(price, files, wsId, s, i)
    {
      assert s in Read(pages) <==> s in multiset(Read(pages));
      assert s in Matching(keep, mine) <==> s in multiset(Matching(keep, mine));
      MatchingMembers(keep, mine);
      InWorkspaceMembers(entries, wsId, s);
      LocatedStands(price, files, wsId, s);
    }
  }

  lemma {:induction false} InWorkspaceMembers(entries: seq<Located>, wsId: string, s: Summary)
    ensures s in InWorkspace(entries, wsId) <==> Located(wsId, s) in entries
  {
    if entries != [] {
      InWorkspaceMembers(entries[1..], wsId, s);
      assert entries == [entries[0]] + entries[1..];
    }
  }
}
