/**
 * The table behind `renderAppsTable`: every call rebuilds the whole table from
 * the stored list. An empty list gives a placeholder; otherwise record `i`
 * gives a summary row tagged `i` followed by a hidden detail row tagged as
 * belonging to `i`. Each row's toggle shows or hides its own detail row and
 * flips its own `open` indicator.
 */
module AppsTable {
  import opened Wrappers
  import opened JsText
  import opened Validator
  import opened RecordStore

  /** The labels of the `free` column. */
  const YesLabel: JsString := Str("نعم")
  const NoLabel: JsString := Str("لا")

  /** The rows of the container, markup left out. */
  datatype Row =
    | Placeholder
    | SummaryRow(idx: nat, logoSrc: JsString, name: JsString, company: JsString, domain: JsString, freeLabel: JsString)
    | DetailRow(forIdx: nat, website: JsString, summary: JsString, logo: Option<JsString>, media: Option<JsString>)

  function FreeLabel(free: JsString): JsString {
    if free == Yes then YesLabel else NoLabel
  }

  /** The summary row of record `idx`: logo thumbnail, name, company, domain, free label and toggle. */
  function SummaryOf(idx: nat, app: AppRecord): Row {
    SummaryRow(idx, app.logo, app.name, app.company, app.domain, FreeLabel(app.free))
  }

  /** The detail row of record `idx`: website link, summary, and the logo and media player when present. */
  function DetailOf(idx: nat, app: AppRecord): Row {
    DetailRow(idx, app.website, app.summary,
              if app.logo != [] then Some(app.logo) else None,
              if app.media != [] then Some(app.media) else None)
  }

  /** The body rows for `apps`, as the loop appends them: two per record, in stored order. */
  function BodyRows(apps: seq<AppRecord>): (rows: seq<Row>)
    ensures |rows| == 2 * |apps|
    decreases |apps|
  {
    if apps == [] then []
    else
      var k := |apps| - 1;
      BodyRows(apps[..k]) + [SummaryOf(k, apps[k]), DetailOf(k, apps[k])]
  }

  /** What the container shows for a stored list. */
  function TableRows(apps: seq<AppRecord>): seq<Row> {
    if apps == [] then [Placeholder] else BodyRows(apps)
  }

  /** Record `i` owns rows `2i` (its summary, tagged `i`) and `2i+1` (its detail row, for `i`). */
  lemma {:induction false} BodyRowsLayout(apps: seq<AppRecord>)
    ensures forall i | 0 <= i < |apps| ::
      BodyRows(apps)[2 * i] == SummaryOf(i, apps[i]) && BodyRows(apps)[2 * i + 1] == DetailOf(i, apps[i])
  {
    if apps != [] {
      var k := |apps| - 1;
      BodyRowsLayout(apps[..k]);
      forall i | 0 <= i < k
        ensures BodyRows(apps)[2 * i] == SummaryOf(i, apps[i]) && BodyRows(apps)[2 * i + 1] == DetailOf(i, apps[i])
      {
        assert apps[..k][i] == apps[i];
      }
    }
  }

  /** The empty list shows only the placeholder; otherwise there is no placeholder and two rows per record. */
  lemma TableShape(apps: seq<AppRecord>)
    ensures apps == [] <==> TableRows(apps) == [Placeholder]
    ensures apps != [] ==> |TableRows(apps)| == 2 * |apps| && Placeholder !in TableRows(apps)
  {
    BodyRowsLayout(apps);
    if apps != [] {
      forall k | 0 <= k < |TableRows(apps)| ensures TableRows(apps)[k] != Placeholder {
        var i := k / 2;
        assert i < |apps| && (k == 2 * i || k == 2 * i + 1);
        assert BodyRows(apps)[2 * i] == SummaryOf(i, apps[i]);
        assert BodyRows(apps)[2 * i + 1] == DetailOf(i, apps[i]);
      }
    }
  }

  /**
   * The toggle tagged `i` finds its detail row by the tag: exactly one row
   * is the detail row for `i`, the one right after the summary row of `i`.
   */
  lemma DetailRowIsUnique(apps: seq<AppRecord>, i: nat, k: nat)
    requires i < |apps| && k < |BodyRows(apps)|
    ensures BodyRows(apps)[k].DetailRow? && BodyRows(apps)[k].forIdx == i <==> k == 2 * i + 1
  {
    BodyRowsLayout(apps);
    var j := k / 2;
    assert j < |apps| && (k == 2 * j || k == 2 * j + 1);
    assert BodyRows(apps)[2 * j] == SummaryOf(j, apps[j]);
    assert BodyRows(apps)[2 * j + 1] == DetailOf(j, apps[j]);
  }

  /** The `free` column shows the yes label iff the record's `free` is exactly `yes`. */
  lemma FreeColumn(apps: seq<AppRecord>, i: nat)
    requires i < |apps|
    ensures BodyRows(apps)[2 * i].SummaryRow?
    ensures BodyRows(apps)[2 * i].freeLabel == YesLabel <==> apps[i].free == Yes
    ensures BodyRows(apps)[2 * i].freeLabel != YesLabel ==> BodyRows(apps)[2 * i].freeLabel == NoLabel
  {
    BodyRowsLayout(apps);
    assert YesLabel[0] != NoLabel[0];
  }

  /** The `forEach` loop that fills the table body; the placeholder when there is nothing to show. */
  method BuildRows(apps: seq<AppRecord>) returns (rows: seq<Row>)
    ensures rows == TableRows(apps)
  {
    if |apps| == 0 {
      return [Placeholder];
    }
    rows := [];
    for idx := 0 to |apps|
      invariant rows == BodyRows(apps[..idx])
    {
      assert apps[..idx + 1][..idx] == apps[..idx];
      rows := rows + [SummaryOf(idx, apps[idx]), DetailOf(idx, apps[idx])];
    }
    assert apps[..|apps|] == apps;
  }

  /** The container after `renderAppsTable`, with the visibility of each detail row and the `open` state of each toggle. */
  class Table {
    /** The list the table was last built from. */
    ghost var apps: seq<AppRecord>
    var rows: seq<Row>
    var detailVisible: array<bool>
    var open: array<bool>

    /**
     * The rows are those of `apps`, there is one flag of each kind per
     * record, and a toggle is open exactly when its detail row is shown.
     */
    ghost predicate Valid()
      reads this, detailVisible, open
    {
      rows == TableRows(apps) &&
      detailVisible.Length == |apps| && open.Length == |apps| && detailVisible != open &&
      forall k | 0 <= k < |apps| :: detailVisible[k] == open[k]
    }

    /** The first rendering of the container. */
    constructor (store: Store)
      ensures Valid() && apps == LoadedApps(store.slot)
      ensures fresh(detailVisible) && fresh(open)
      ensures forall k | 0 <= k < |apps| :: !detailVisible[k] && !open[k]
    {
      var list := store.Load();
      var built := BuildRows(list);
      apps := list;
      rows := built;
      detailVisible := new bool[|list|](_ => false);
      open := new bool[|list|](_ => false);
    }

    /**
     * `renderAppsTable`: the container is emptied and rebuilt from the store,
     * so the result depends on the stored list only, with every detail row
     * hidden and every toggle closed.
     */
    method Render(store: Store)
      modifies this
      ensures Valid() && apps == LoadedApps(store.slot)
      ensures fresh(detailVisible) && fresh(open)
      ensures forall k | 0 <= k < |apps| :: !detailVisible[k] && !open[k]
    {
      var list := store.Load();
      rows := BuildRows(list);
      apps := list;
      detailVisible := new bool[|list|](_ => false);
      open := new bool[|list|](_ => false);
    }

    /** A click on the toggle tagged `i`: its detail row and its `open` state flip, nothing else changes. */
    method Toggle(i: nat)
      requires Valid() && i < detailVisible.Length
      modifies detailVisible, open
      ensures Valid()
      ensures detailVisible[i] == !old(detailVisible[i]) && open[i] == !old(open[i])
      ensures forall k | 0 <= k < detailVisible.Length && k != i ::
        detailVisible[k] == old(detailVisible[k]) && open[k] == old(open[k])
    {
      detailVisible[i] := !detailVisible[i];
      open[i] := !open[i];
    }
  }

  /** Rendering twice from an unchanged store gives the same rows, all collapsed. */
  method RenderTwice(t: Table, store: Store) returns (first: seq<Row>)
    modifies t
    ensures t.Valid() && t.rows == first
    ensures forall k | 0 <= k < t.detailVisible.Length :: !t.detailVisible[k] && !t.open[k]
  {
    t.Render(store);
    first := t.rows;
    t.Render(store);
  }

  /** Toggling the same row twice restores every flag. */
  method ToggleTwice(t: Table, i: nat)
    requires t.Valid() && i < t.detailVisible.Length
    modifies t.detailVisible, t.open
    ensures t.Valid()
    ensures t.detailVisible[..] == old(t.detailVisible[..]) && t.open[..] == old(t.open[..])
  {
    t.Toggle(i);
    t.Toggle(i);
  }

  /** Opening two different rows of a freshly rendered table leaves both detail rows shown. */
  method OpenTwo(store: Store, i: nat, j: nat) returns (t: Table)
    requires i != j && i < |LoadedApps(store.slot)| && j < |LoadedApps(store.slot)|
    ensures t.Valid() && t.apps == LoadedApps(store.slot)
    ensures t.detailVisible[i] && t.detailVisible[j]
    ensures forall k | 0 <= k < t.detailVisible.Length && k != i && k != j :: !t.detailVisible[k]
  {
    t := new Table(store);
    t.Toggle(i);
    t.Toggle(j);
  }
}
