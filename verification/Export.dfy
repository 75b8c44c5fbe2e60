/**
 * The paged export: beliefs, evidence and events by ascending id, following `next_cursor` from nothing to
 * nothing, over a store that does not change meanwhile.
 */
module Export {
  import opened Basics

  const MAX_PAGE_SIZE := 5000

  /** A row, and whether the visibility rule shows it. */
  datatype Row = Row(id: int, visible: bool)

  datatype Section = Beliefs | Evidence | Events

  datatype Store = Store(beliefs: seq<Row>, evidence: seq<Row>, events: seq<Row>)

  type Cursor = (Section, int)

  datatype Page = Page(section: Section, items: seq<int>, next: Option<Cursor>)

  function RowsOf(s: Store, section: Section): seq<Row> {
    match section
    case Beliefs => s.beliefs
    case Evidence => s.evidence
    case Events => s.events
  }

  predicate Ascending(rows: seq<Row>) {
    && (forall i :: 0 <= i < |rows| ==> rows[i].id > 0)
    && (forall i, j :: 0 <= i < j < |rows| ==> rows[i].id < rows[j].id)
  }

  /** `WHERE id > last ORDER BY id`, on rows already in order. */
  function After(rows: seq<Row>, last: int): (r: seq<Row>)
    ensures |r| <= |rows|
  {
    if |rows| == 0 then [] else if rows[0].id > last then rows else After(rows[1..], last)
  }

  function Take(rows: seq<Row>, n: nat): seq<Row> {
    if |rows| <= n then rows else rows[..n]
  }

  /** The rows a request is shown: with a rule, the visible ones. */
  function Shown(rows: seq<Row>, ruled: bool): (r: seq<Row>)
    ensures |r| <= |rows|
  {
    if |rows| == 0 then []
    else Shown(rows[..|rows| - 1], ruled) + (if ruled && !rows[|rows| - 1].visible then [] else [rows[|rows| - 1]])
  }

  function Ids(rows: seq<Row>): seq<int> {
    seq(|rows|, i requires 0 <= i < |rows| => rows[i].id)
  }

  function NextSection(section: Section): Option<Cursor> {
    match section
    case Beliefs => Some((Evidence, 0))
    case Evidence => Some((Events, 0))
    case Events => None
  }

  /** `read_page`.  Beliefs test the fetched rows for a full page; evidence and events test the rows that
      are left after withholding. */
  function ReadPage(s: Store, ruled: bool, cursor: Option<Cursor>, size: nat): Result<Page, string> {
    if size < 1 || size > MAX_PAGE_SIZE then Err("page_size out of range")
    else
      var (section, last) := if cursor.None? then (Beliefs, 0) else cursor.value;
      var fetched := Take(After(RowsOf(s, section), last), size);
      var kept := Shown(fetched, ruled);
      var counted := if section.Beliefs? then fetched else kept;
      Ok(Page(section, Ids(kept),
              if |counted| == size then Some((section, fetched[|fetched| - 1].id))
              else NextSection(section)))
  }

  // ---------------------------------------------------------------------------------------------
  // Following the cursor
  // ---------------------------------------------------------------------------------------------

  /** Everything the pages of one section show, when the section starts at `rows`. */
  function Walk(rows: seq<Row>, ruled: bool, lenient: bool, size: nat): seq<int>
    requires size >= 1
    decreases |rows|
  {
    var fetched := Take(rows, size);
    var kept := Shown(fetched, ruled);
    Ids(kept)
    + if |if lenient then fetched else kept| == size then Walk(rows[|fetched|..], ruled, lenient, size) else []
  }

  function WalkSection(s: Store, ruled: bool, section: Section, size: nat): seq<int>
    requires size >= 1
  {
    Walk(RowsOf(s, section), ruled, section.Beliefs?, size)
  }

  function LaterSections(s: Store, ruled: bool, section: Section, size: nat): seq<int>
    requires size >= 1
  {
    match section
    case Beliefs => WalkSection(s, ruled, Evidence, size) + WalkSection(s, ruled, Events, size)
    case Evidence => WalkSection(s, ruled, Events, size)
    case Events => []
  }

  /** What is still to come from a cursor on. */
  function ToCome(s: Store, ruled: bool, cursor: Option<Cursor>, size: nat): seq<int>
    requires size >= 1
  {
    match cursor
    case None => []
    case Some((section, last)) =>
      Walk(After(RowsOf(s, section), last), ruled, section.Beliefs?, size) + LaterSections(s, ruled, section, size)
  }

  predicate StoreOk(s: Store) {
    Ascending(s.beliefs) && Ascending(s.evidence) && Ascending(s.events)
  }

  lemma AfterNothing(rows: seq<Row>)
    requires Ascending(rows)
    ensures After(rows, 0) == rows
  {
  }

  /** Resuming after the last fetched row loses and repeats nothing. */
  lemma {:induction false} AfterFetched(rows: seq<Row>, last: int, n: nat)
    requires Ascending(rows) && 0 < n <= |After(rows, last)|
    ensures After(rows, After(rows, last)[n - 1].id) == After(rows, last)[n..]
    ensures Ascending(After(rows, last))
  {
    if rows[0].id > last {
      SkipTo(rows, n);
    } else {
      AfterFetched(rows[1..], last, n);
      assert After(rows[1..], last)[n - 1] in rows[1..] by { AfterIsSuffix(rows[1..], last); }
    }
  }

  lemma {:induction false} AfterIsSuffix(rows: seq<Row>, last: int)
    ensures After(rows, last) == rows[|rows| - |After(rows, last)|..]
  {
    if |rows| > 0 && rows[0].id <= last {
      AfterIsSuffix(rows[1..], last);
    }
  }

  lemma {:induction false} SkipTo(rows: seq<Row>, n: nat)
    requires Ascending(rows) && 0 < n <= |rows|
    ensures After(rows, rows[n - 1].id) == rows[n..]
  {
    if n == 1 {
      assert |rows| > 1 ==> rows[1].id > rows[0].id;
      assert After(rows, rows[0].id) == After(rows[1..], rows[0].id);
    } else {
      SkipTo(rows[1..], n - 1);
      assert rows[1..][n - 2] == rows[n - 1];
      assert rows[0].id < rows[n - 1].id;
    }
  }

  function Rank(section: Section): nat {
    match section
    case Beliefs => 3
    case Evidence => 2
    case Events => 1
  }

  function SectionsLeft(cursor: Option<Cursor>): nat {
    if cursor.None? then 0 else Rank(cursor.value.0)
  }

  function RowsLeft(s: Store, cursor: Option<Cursor>): nat {
    if cursor.None? then 0 else |After(RowsOf(s, cursor.value.0), cursor.value.1)|
  }

  /** What one page amounts to. */
  function Fetched(s: Store, cursor: Cursor, size: nat): seq<Row> {
    Take(After(RowsOf(s, cursor.0), cursor.1), size)
  }

  predicate Full(s: Store, ruled: bool, cursor: Cursor, size: nat) {
    |if cursor.0.Beliefs? then Fetched(s, cursor, size) else Shown(Fetched(s, cursor, size), ruled)| == size
  }

  lemma PageIs(s: Store, ruled: bool, cursor: Cursor, size: nat)
    requires 1 <= size <= MAX_PAGE_SIZE
    ensures var fetched := Fetched(s, cursor, size);
            && (Full(s, ruled, cursor, size) ==> |fetched| > 0)
            && ReadPage(s, ruled, Some(cursor), size)
               == Ok(Page(cursor.0, Ids(Shown(fetched, ruled)),
                          if Full(s, ruled, cursor, size) then Some((cursor.0, fetched[|fetched| - 1].id))
                          else NextSection(cursor.0)))
  {
  }

  lemma WalkUnfold(rows: seq<Row>, ruled: bool, lenient: bool, size: nat)
    requires size >= 1
    ensures var fetched := Take(rows, size);
            var items := Ids(Shown(fetched, ruled));
            Walk(rows, ruled, lenient, size)
            == if |if lenient then fetched else Shown(fetched, ruled)| == size
               then items + Walk(rows[|fetched|..], ruled, lenient, size) else items
  {
  }

  lemma Resume(s: Store, cursor: Cursor, n: nat)
    requires StoreOk(s) && 0 < n <= |After(RowsOf(s, cursor.0), cursor.1)|
    ensures var rows := After(RowsOf(s, cursor.0), cursor.1);
            After(RowsOf(s, cursor.0), rows[n - 1].id) == rows[n..]
  {
    hide After, Ascending;
    AfterFetched(RowsOf(s, cursor.0), cursor.1, n);
  }

  /** A full page: the section goes on right after it. */
  lemma FullPage(s: Store, ruled: bool, cursor: Cursor, size: nat)
    requires StoreOk(s) && size >= 1 && Full(s, ruled, cursor, size)
    ensures var fetched := Fetched(s, cursor, size);
            |fetched| > 0 &&
            var next := Some((cursor.0, fetched[|fetched| - 1].id));
            && Ids(Shown(fetched, ruled)) + ToCome(s, ruled, next, size) == ToCome(s, ruled, Some(cursor), size)
            && RowsLeft(s, next) < RowsLeft(s, Some(cursor))
  {
    hide StoreOk, Shown, After, Ids, LaterSections, RowsOf, Walk;
    var fetched := Fetched(s, cursor, size);
    var rows := After(RowsOf(s, cursor.0), cursor.1);
    assert |fetched| <= |rows| && fetched[|fetched| - 1] == rows[|fetched| - 1];
    Resume(s, cursor, |fetched|);
    WalkUnfold(rows, ruled, cursor.0.Beliefs?, size);
  }

  /** A page that is not full: the next section starts. */
  lemma LastPage(s: Store, ruled: bool, cursor: Cursor, size: nat)
    requires StoreOk(s) && size >= 1 && !Full(s, ruled, cursor, size)
    ensures Ids(Shown(Fetched(s, cursor, size), ruled)) + ToCome(s, ruled, NextSection(cursor.0), size)
            == ToCome(s, ruled, Some(cursor), size)
    ensures SectionsLeft(NextSection(cursor.0)) < SectionsLeft(Some(cursor))
  {
    hide StoreOk, Shown, After, Ids, Walk, Ascending, LaterSections;
    WalkUnfold(After(RowsOf(s, cursor.0), cursor.1), ruled, cursor.0.Beliefs?, size);
    SectionStarts(s, ruled, cursor.0, size);
  }

  /** The cursor to the next section has just the later sections before it. */
  lemma SectionStarts(s: Store, ruled: bool, section: Section, size: nat)
    requires StoreOk(s) && size >= 1
    ensures ToCome(s, ruled, NextSection(section), size) == LaterSections(s, ruled, section, size)
  {
  }

  /** One page: it shows the head of what is to come, leaves the rest to its cursor, and gets nearer the end. */
  lemma PageStep(s: Store, ruled: bool, cursor: Cursor, size: nat)
    requires StoreOk(s) && 1 <= size <= MAX_PAGE_SIZE
    ensures ReadPage(s, ruled, Some(cursor), size).Ok?
    ensures var page := ReadPage(s, ruled, Some(cursor), size).value;
            && page.items + ToCome(s, ruled, page.next, size) == ToCome(s, ruled, Some(cursor), size)
            && (SectionsLeft(page.next) < SectionsLeft(Some(cursor))
                || (SectionsLeft(page.next) == SectionsLeft(Some(cursor))
                    && RowsLeft(s, page.next) < RowsLeft(s, Some(cursor))))
  {
    hide StoreOk, ReadPage, ToCome, RowsLeft, Shown, Fetched, Full, Ids;
    PageIs(s, ruled, cursor, size);
    if Full(s, ruled, cursor, size) {
      FullPage(s, ruled, cursor, size);
    } else {
      LastPage(s, ruled, cursor, size);
    }
  }

  /** A page is refused exactly for a size outside 1 to 5000; otherwise it is of the cursor's section. */
  lemma PageSizeIsChecked(s: Store, ruled: bool, cursor: Option<Cursor>, size: nat)
    ensures ReadPage(s, ruled, cursor, size).Ok? <==> 1 <= size <= 5000
    ensures ReadPage(s, ruled, cursor, size).Ok? ==>
              ReadPage(s, ruled, cursor, size).value.section == if cursor.None? then Beliefs else cursor.value.0
  {
    hide After, Take, Shown, Ids;
  }

  /** `export`: page after page until there is no next cursor. */
  method Export(s: Store, ruled: bool, size: nat) returns (all: seq<int>)
    requires StoreOk(s) && 1 <= size <= MAX_PAGE_SIZE
    ensures all == WalkSection(s, ruled, Beliefs, size) + WalkSection(s, ruled, Evidence, size)
                   + WalkSection(s, ruled, Events, size)
  {
    hide StoreOk, ReadPage, Walk;
    var first: Option<Cursor> := Some((Beliefs, 0));
    FirstPage(s, ruled, size);
    PageStep(s, ruled, (Beliefs, 0), size);
    var page := ReadPage(s, ruled, None, size).value;
    all := page.items;
    var cursor := page.next;
    while cursor.Some?
      invariant all + ToCome(s, ruled, cursor, size) == ToCome(s, ruled, first, size)
      decreases SectionsLeft(cursor), RowsLeft(s, cursor)
    {
      PageStep(s, ruled, cursor.value, size);
      page := ReadPage(s, ruled, cursor, size).value;
      all := all + page.items;
      cursor := page.next;
    }
    Whole(s, ruled, size);
  }

  /** No cursor is the start of the beliefs. */
  lemma FirstPage(s: Store, ruled: bool, size: nat)
    ensures ReadPage(s, ruled, None, size) == ReadPage(s, ruled, Some((Beliefs, 0)), size)
  {
  }

  lemma Whole(s: Store, ruled: bool, size: nat)
    requires StoreOk(s) && size >= 1
    ensures ToCome(s, ruled, Some((Beliefs, 0)), size)
            == WalkSection(s, ruled, Beliefs, size) + WalkSection(s, ruled, Evidence, size)
               + WalkSection(s, ruled, Events, size)
  {
    hide Walk, Ascending, After;
    AfterNothing(s.beliefs);
  }

  // ---------------------------------------------------------------------------------------------
  // What is exported
  // ---------------------------------------------------------------------------------------------

  lemma {:induction false} ShownConcat(a: seq<Row>, b: seq<Row>, ruled: bool)
    ensures Shown(a + b, ruled) == Shown(a, ruled) + Shown(b, ruled)
  {
    if |b| == 0 {
      assert a + b == a;
    } else {
      ShownConcat(a, b[..|b| - 1], ruled);
      assert (a + b)[..|a + b| - 1] == a + b[..|b| - 1];
    }
  }

  lemma IdsConcat(a: seq<Row>, b: seq<Row>)
    ensures Ids(a + b) == Ids(a) + Ids(b)
  {
  }

  /** Nothing is withheld from a chunk. */
  predicate AllShown(rows: seq<Row>, ruled: bool) {
    ruled ==> forall i :: 0 <= i < |rows| ==> rows[i].visible
  }

  lemma {:induction false} ShownIsAll(rows: seq<Row>, ruled: bool)
    ensures |Shown(rows, ruled)| == |rows| <==> AllShown(rows, ruled)
    ensures AllShown(rows, ruled) ==> Shown(rows, ruled) == rows
  {
    if |rows| > 0 {
      ShownIsAll(rows[..|rows| - 1], ruled);
    }
  }

  lemma {:induction false} ShownIsNone(rows: seq<Row>, ruled: bool)
    ensures Shown(rows, ruled) == [] <==> (|rows| == 0 || (ruled && forall i :: 0 <= i < |rows| ==> !rows[i].visible))
  {
    if |rows| > 0 {
      ShownIsNone(rows[..|rows| - 1], ruled);
    }
  }

  /** Beliefs, with or without a rule, and every section without one: exactly the shown rows, once, in order. */
  lemma {:induction false} WalkShowsEverything(rows: seq<Row>, ruled: bool, lenient: bool, size: nat)
    requires size >= 1 && (lenient || !ruled)
    ensures Walk(rows, ruled, lenient, size) == Ids(Shown(rows, ruled))
    decreases |rows|
  {
    hide Walk, Shown, Ids, AllShown;
    var fetched := Take(rows, size);
    WalkUnfold(rows, ruled, lenient, size);
    ShownUnruled(fetched, ruled);
    if |fetched| == size {
      var rest := rows[size..];
      WalkShowsEverything(rest, ruled, lenient, size);
      assert rows == fetched + rest;
      ShownConcat(fetched, rest, ruled);
      IdsConcat(Shown(fetched, ruled), Shown(rest, ruled));
    }
  }

  lemma ShownUnruled(rows: seq<Row>, ruled: bool)
    ensures !ruled ==> Shown(rows, ruled) == rows
  {
  }

  /** The shown rows are the visible ones, every one once, by ascending id. */
  lemma {:induction false} ShownIsExact(rows: seq<Row>, ruled: bool)
    requires Ascending(rows)
    ensures Ascending(Shown(rows, ruled))
    ensures forall r :: r in Shown(rows, ruled) <==> r in rows && (!ruled || r.visible)
  {
    if |rows| > 0 {
      var init := rows[..|rows| - 1];
      var last := rows[|rows| - 1];
      ShownIsExact(init, ruled);
      var shown := Shown(init, ruled);
      assert rows == init + [last];
      forall i | 0 <= i < |shown| ensures shown[i].id < last.id {
        assert shown[i] in shown && shown[i] in init;
      }
    }
  }

  // ---------------------------------------------------------------------------------------------
  // Evidence and events under a rule
  // ---------------------------------------------------------------------------------------------

  /** The `k`-th full page of the section withholds a row although a visible row comes after that page. */
  predicate WithholdsAt(rows: seq<Row>, size: nat, k: nat)
    requires size >= 1
  {
    && (k + 1) * size <= |rows|
    && 0 <= k * size <= (k + 1) * size
    && !AllShown(rows[k * size..(k + 1) * size], true)
    && Shown(rows[(k + 1) * size..], true) != []
  }

  ghost predicate EndsEarly(rows: seq<Row>, size: nat)
    requires size >= 1
  {
    exists k: nat :: WithholdsAt(rows, size, k)
  }

  lemma WithholdsShifts(rows: seq<Row>, size: nat, k: nat)
    requires 1 <= size <= |rows|
    ensures WithholdsAt(rows, size, k + 1) <==> WithholdsAt(rows[size..], size, k)
  {
    hide AllShown, Shown;
    var a, b := k * size, (k + 1) * size;
    assert b == a + size && (k + 2) * size == b + size && 0 <= a;
    if b + size <= |rows| {
      assert rows[b..b + size] == rows[size..][a..b];
      assert rows[b + size..] == rows[size..][b..];
    }
  }

  lemma WithholdsFirst(rows: seq<Row>, size: nat)
    requires 1 <= size <= |rows|
    ensures WithholdsAt(rows, size, 0) <==> !AllShown(rows[..size], true) && Shown(rows[size..], true) != []
  {
  }

  /** A later withholding page has a visible row after the first page, too. */
  lemma WithholdsLater(rows: seq<Row>, size: nat, k: nat)
    requires 1 <= size <= |rows| && WithholdsAt(rows, size, k)
    ensures Shown(rows[size..], true) != []
  {
    hide AllShown, Shown;
    var b := (k + 1) * size;
    assert b >= size by { assert k * size >= 0 && b == k * size + size; }
    assert rows[size..] == rows[size..b] + rows[b..];
    ShownConcat(rows[size..b], rows[b..], true);
  }

  lemma EndsEarlyFromFirstPage(rows: seq<Row>, size: nat)
    requires 1 <= size <= |rows|
    ensures EndsEarly(rows, size) <==>
              if AllShown(rows[..size], true) then EndsEarly(rows[size..], size) else Shown(rows[size..], true) != []
  {
    hide AllShown, Shown, WithholdsAt;
    WithholdsFirst(rows, size);
    if EndsEarly(rows, size) {
      var k: nat :| WithholdsAt(rows, size, k);
      WithholdsLater(rows, size, k);
      if k > 0 {
        WithholdsShifts(rows, size, k - 1);
      }
    }
    if EndsEarly(rows[size..], size) {
      var k: nat :| WithholdsAt(rows[size..], size, k);
      WithholdsShifts(rows, size, k);
    }
  }

  lemma NoFullPage(rows: seq<Row>, size: nat)
    requires size >= 1 && |rows| < size
    ensures !EndsEarly(rows, size)
  {
  }

  lemma Cancel(a: seq<int>, b: seq<int>, c: seq<int>)
    ensures a + b == a + c <==> b == c
  {
    if a + b == a + c {
      assert b == (a + b)[|a|..] && c == (a + c)[|a|..];
    }
  }

  /** Evidence and events under a rule: the export shows every visible row exactly when no full page withholds
      a row while a visible one comes later; otherwise the section ends at that page. */
  lemma {:induction false} WalkIsCompleteIff(rows: seq<Row>, size: nat)
    requires size >= 1
    ensures Walk(rows, true, false, size) == Ids(Shown(rows, true)) <==> !EndsEarly(rows, size)
    decreases |rows|
  {
    hide Walk, Shown, Ids, AllShown, EndsEarly;
    WalkUnfold(rows, true, false, size);
    if |rows| < size {
      NoFullPage(rows, size);
    } else {
      var page, rest := rows[..size], rows[size..];
      assert rows == page + rest;
      ShownIsAll(page, true);
      ShownConcat(page, rest, true);
      IdsConcat(Shown(page, true), Shown(rest, true));
      EndsEarlyFromFirstPage(rows, size);
      TakeIs(rows, size);
      if AllShown(page, true) {
        WalkIsCompleteIff(rest, size);
        Cancel(Ids(page), Walk(rest, true, false, size), Ids(Shown(rest, true)));
      } else {
        Cancel(Ids(Shown(page, true)), [], Ids(Shown(rest, true)));
        IdsLength(Shown(rest, true));
        assert Ids(Shown(page, true)) + [] == Ids(Shown(page, true));
      }
    }
  }

  const THREE_ROWS := [Row(1, true), Row(2, false), Row(3, true)]

  lemma ThreeRowsShown()
    ensures THREE_ROWS[..2] == [Row(1, true), Row(2, false)] && THREE_ROWS[2..] == [Row(3, true)]
    ensures Shown(THREE_ROWS[2..], true) == [Row(3, true)]
    ensures Shown(THREE_ROWS, true) == [Row(1, true), Row(3, true)]
  {
    hide Shown;
    var a, b, c := Row(1, true), Row(2, false), Row(3, true);
    ShownOne(a);
    ShownOne(b);
    ShownOne(c);
    ShownConcat([a], [b], true);
    ShownConcat([a, b], [c], true);
    assert [a] + [b] == [a, b] && [a, b] + [c] == THREE_ROWS;
    assert THREE_ROWS[2..] == [c];
  }

  lemma ShownOne(r: Row)
    ensures Shown([r], true) == if r.visible then [r] else []
  {
    assert [r][..0] == [];
  }

  lemma ThreeRowsEndEarly()
    ensures WithholdsAt(THREE_ROWS, 2, 0)
  {
    hide Shown;
    ThreeRowsShown();
    assert !THREE_ROWS[0..2][1].visible;
  }

  /** Such rows: the first of two pages withholds a row, the second shows one, and the walk never reaches it. */
  lemma WalkCanEndEarly()
    ensures EndsEarly(THREE_ROWS, 2)
    ensures Ids(Shown(THREE_ROWS, true)) == [1, 3] && Walk(THREE_ROWS, true, false, 2) != [1, 3]
  {
    hide Walk, Shown, WithholdsAt, AllShown;
    ThreeRowsEndEarly();
    ThreeRowsShown();
    WalkIsCompleteIff(THREE_ROWS, 2);
  }

  lemma TakeIs(rows: seq<Row>, size: nat)
    requires size <= |rows|
    ensures Take(rows, size) == rows[..size]
  {
  }

  lemma IdsLength(rows: seq<Row>)
    ensures Ids(rows) == [] <==> rows == []
  {
  }

  /** The whole export, section by section: everything shown once and in order, without a rule; under one, the
      beliefs always, and the other two exactly when they do not end early. */
  lemma ExportIsCompleteIff(s: Store, ruled: bool, size: nat)
    requires StoreOk(s) && size >= 1
    ensures WalkSection(s, ruled, Beliefs, size) == Ids(Shown(s.beliefs, ruled))
    ensures WalkSection(s, ruled, Evidence, size) == Ids(Shown(s.evidence, ruled))
       <==> !(ruled && EndsEarly(s.evidence, size))
    ensures WalkSection(s, ruled, Events, size) == Ids(Shown(s.events, ruled))
       <==> !(ruled && EndsEarly(s.events, size))
  {
    hide Walk, Shown, Ids, EndsEarly, StoreOk;
    WalkShowsEverything(s.beliefs, ruled, true, size);
    if ruled {
      WalkIsCompleteIff(s.evidence, size);
      WalkIsCompleteIff(s.events, size);
    } else {
      WalkShowsEverything(s.evidence, ruled, false, size);
      WalkShowsEverything(s.events, ruled, false, size);
    }
  }
}
