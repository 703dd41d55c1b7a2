/**
 * The infinite-scroll paging shared by the project list and the diagram
 * list: page `n` asks the backend for rows `10n` to `10n + 9` (inclusive) of
 * the ordered table, a page is either appended to what is shown or replaces
 * it, and there is more to load exactly when the last page came back full.
 */
module Paging {

  const PageSize := 10

  /** The inclusive row range of `.range(from, to)`. */
  datatype Range = Range(from: int, to: int)

  /** `from = pageNum * PAGE_SIZE; to = from + PAGE_SIZE - 1` */
  function PageRange(page: nat): (r: Range)
    ensures r.to - r.from + 1 == PageSize
  {
    Range(page * PageSize, page * PageSize + PageSize - 1)
  }

  /** Each page starts right after the previous one ends: no row is skipped. */
  lemma PagesAreContiguous(page: nat)
    ensures PageRange(page + 1).from == PageRange(page).to + 1
  {
  }

  /** Different pages share no row. */
  lemma PagesAreDisjoint(m: nat, n: nat)
    requires m < n
    ensures PageRange(m).to < PageRange(n).from
  {
    assert m * PageSize + PageSize <= n * PageSize;
  }

  /** Every row is on exactly one page, page `row / 10`. */
  lemma RowIsOnOnePage(row: nat, page: nat)
    ensures PageRange(page).from <= row <= PageRange(page).to <==> page == row / PageSize
  {
    if page < row / PageSize {
      PagesAreDisjoint(page, row / PageSize);
    } else if page > row / PageSize {
      PagesAreDisjoint(row / PageSize, page);
    }
  }

  /** After a page arrives: appended to the list (scrolling) or replacing it (a fresh load). */
  function Loaded<T>(prev: seq<T>, data: seq<T>, append: bool): (r: seq<T>)
    ensures append ==> |r| == |prev| + |data| && r[..|prev|] == prev && r[|prev|..] == data
    ensures !append ==> r == data
  {
    if append then prev + data else data
  }

  /** `setHasMore(data.length === PAGE_SIZE)` */
  predicate HasMore<T>(data: seq<T>) {
    |data| == PageSize
  }

  // ------------------------------------------------------------ against a table

  function Min(a: int, b: int): int {
    if a <= b then a else b
  }

  /** The rows the backend returns for page `n` of an ordered table. */
  function ServerPage<T>(table: seq<T>, n: nat): (rows: seq<T>)
    ensures |rows| <= PageSize
  {
    table[Min(PageRange(n).from, |table|)..Min(PageRange(n).to + 1, |table|)]
  }

  /** What is shown after loading page 0 afresh and appending pages 1 to `k`. */
  function Scrolled<T>(table: seq<T>, k: nat): seq<T> {
    if k == 0 then Loaded([], ServerPage(table, 0), false)
    else Loaded(Scrolled(table, k - 1), ServerPage(table, k), true)
  }

  /** Scrolling through pages 0 to `k` shows the first `10(k + 1)` rows of the table, in order. */
  lemma {:induction false} ScrolledIsPrefix<T>(table: seq<T>, k: nat)
    ensures Scrolled(table, k) == table[..Min((k + 1) * PageSize, |table|)]
  {
    if k > 0 {
      ScrolledIsPrefix(table, k - 1);
      var a := Min(k * PageSize, |table|);
      var b := Min((k + 1) * PageSize, |table|);
      assert table[..a] + table[a..b] == table[..b];
    }
  }

  /**
   * When a page comes back short, the whole table is shown; while pages come
   * back full, the rows shown are all real rows (a table whose size is a
   * multiple of 10 costs one extra, empty, page).
   */
  lemma ShortPageMeansEverythingShown<T>(table: seq<T>, k: nat)
    ensures !HasMore(ServerPage(table, k)) ==> Scrolled(table, k) == table
    ensures HasMore(ServerPage(table, k)) ==> (k + 1) * PageSize <= |table|
  {
    ScrolledIsPrefix(table, k);
    if (k + 1) * PageSize <= |table| {
      assert |ServerPage(table, k)| == PageSize;
    }
  }
}
