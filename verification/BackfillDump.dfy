/** The initial dump over any number of starts of the process: the slot is new at the first one and old at
    every later one, and nothing but the dump touches the store until one of them succeeds. */
module BackfillDump {

  import opened Wrappers
  import opened Backfill

  /** One start: whether the dump reached the database, and what its selects gave. */
  datatype Start = Start(reached: bool, selects: seq<Select>)

  predicate StartsFit(tables: seq<string>, starts: seq<Start>) {
    forall a :: 0 <= a < |starts| ==> |starts[a].selects| == |tables|
  }

  /** The store after the starts, and whether the last one succeeded. */
  function After(s: Tables, tables: seq<string>, starts: seq<Start>): (Tables, bool)
    requires starts != [] && StartsFit(tables, starts)
  {
    var n := |starts| - 1;
    if n == 0 then Connect(s, true, starts[0].reached, tables, starts[0].selects)
    else Connect(After(s, tables, starts[..n]).0, false, starts[n].reached, tables, starts[n].selects)
  }

  /** A select of table `t` succeeded at some start, and every row with an id it gave is staged. */
  ghost predicate StagedFrom(s: Tables, tables: seq<string>, starts: seq<Start>, t: string)
    requires StartsFit(tables, starts)
  {
    exists a, m :: 0 <= a < |starts| && 0 <= m < |tables| && tables[m] == t && HasAll(s.rows, t, starts[a].selects[m])
  }

  ghost predicate HasAll(rows: Rows, t: string, select: Select) {
    select.Rows? && forall i :: 0 <= i < |select.rows| && select.rows[i].0 != "" ==> RowKey(t, select.rows[i].0) in rows
  }

  /** What is complete is staged. */
  ghost predicate CompleteIsStaged(s: Tables, tables: seq<string>, starts: seq<Start>)
    requires StartsFit(tables, starts)
  {
    forall t :: Dumped(s, t) ==> StagedFrom(s, tables, starts, t)
  }

  // ---------- one dump ----------

  /** What the dump of one table keeps and adds. */
  lemma DumpOneIs(s: Tables, table: string, select: Select)
    ensures var (r, ok) := DumpOne(s, table, select);
      && r.rows.Keys >= s.rows.Keys && r.markers.Keys == s.markers.Keys + {table}
      && (ok ==> Dumped(r, table)) && (select.Rows? ==> ok)
      && (forall t :: Dumped(s, t) ==> Dumped(r, t))
      && (Dumped(r, table) && !Dumped(s, table) ==> HasAll(r.rows, table, select))
      && (forall t :: t != table && Dumped(r, t) ==> Dumped(s, t))
  {
    if !select.Failed? { StageIs(s.rows, table, select.rows); }
    hide Stage;
  }

  lemma StagedGrows(s: Tables, r: Tables, tables: seq<string>, starts: seq<Start>, t: string)
    requires StartsFit(tables, starts) && s.rows.Keys <= r.rows.Keys && StagedFrom(s, tables, starts, t)
    ensures StagedFrom(r, tables, starts, t)
  {
    var a, m :| 0 <= a < |starts| && 0 <= m < |tables| && tables[m] == t && HasAll(s.rows, t, starts[a].selects[m]);
    assert HasAll(r.rows, t, starts[a].selects[m]);
  }

  /** The dump of the next table, after those before it. */
  lemma NextTable(s: Tables, tables: seq<string>, selects: seq<Select>, m: nat)
    requires |selects| == |tables| && m < |tables|
    ensures var (before, ok) := Dump(s, tables[..m], selects[..m]);
      var (r, ok') := Dump(s, tables[..m + 1], selects[..m + 1]);
      && before.markers.Keys <= r.markers.Keys && before.rows.Keys <= r.rows.Keys
      && (forall t :: Dumped(before, t) ==> Dumped(r, t))
      && (ok' ==> ok && Dumped(r, tables[m])) && (ok && selects[m].Rows? ==> ok')
      && (ok ==> tables[m] in r.markers) && (!ok ==> r == before)
  {
    DumpStep(s, tables, selects, m);
    DumpOneIs(Dump(s, tables[..m], selects[..m]).0, tables[m], selects[m]);
    hide Dump, DumpOne, HasAll;
  }

  lemma {:induction false} DumpKeeps(s: Tables, tables: seq<string>, starts: seq<Start>, n: nat)
    requires starts != [] && StartsFit(tables, starts) && n <= |tables| && CompleteIsStaged(s, tables, starts)
    ensures var selects := starts[|starts| - 1].selects;
      CompleteIsStaged(Dump(s, tables[..n], selects[..n]).0, tables, starts)
  {
    if n > 0 {
      var selects := starts[|starts| - 1].selects;
      DumpKeeps(s, tables, starts, n - 1);
      DumpStep(s, tables, selects, n - 1);
      hide *;
      OneMoreStaged(Dump(s, tables[..n - 1], selects[..n - 1]).0, tables, starts, n - 1);
    }
  }

  lemma {:induction false} DumpCompletes(s: Tables, tables: seq<string>, selects: seq<Select>, n: nat)
    requires |selects| == |tables| && n <= |tables|
    ensures var (r, ok) := Dump(s, tables[..n], selects[..n]);
      && (ok ==> forall i :: 0 <= i < n ==> Dumped(r, tables[i]))
      && ((forall i :: 0 <= i < n ==> selects[i].Rows?) ==> ok)
      && (n > 0 ==> tables[0] in r.markers)
  {
    if n > 0 {
      DumpCompletes(s, tables, selects, n - 1);
      NextTable(s, tables, selects, n - 1);
      if n == 1 { assert Dump(s, tables[..0], selects[..0]).1; }
      hide Dump;
    }
  }

  lemma DumpIs(s: Tables, tables: seq<string>, starts: seq<Start>)
    requires starts != [] && StartsFit(tables, starts) && tables != [] && CompleteIsStaged(s, tables, starts)
    ensures var selects := starts[|starts| - 1].selects;
      var (r, ok) := Dump(s, tables, selects);
      && CompleteIsStaged(r, tables, starts) && r.markers != map[]
      && (ok ==> forall i :: 0 <= i < |tables| ==> Dumped(r, tables[i]))
      && ((forall i :: 0 <= i < |tables| ==> selects[i].Rows?) ==> ok)
  {
    var selects := starts[|starts| - 1].selects;
    assert tables[..|tables|] == tables && selects[..|tables|] == selects;
    hide Dump, CompleteIsStaged;
    DumpKeeps(s, tables, starts, |tables|);
    DumpCompletes(s, tables, selects, |tables|);
  }

  lemma OneMoreStaged(s: Tables, tables: seq<string>, starts: seq<Start>, m: nat)
    requires starts != [] && StartsFit(tables, starts) && m < |tables| && CompleteIsStaged(s, tables, starts)
    ensures CompleteIsStaged(DumpOne(s, tables[m], starts[|starts| - 1].selects[m]).0, tables, starts)
  {
    var a := |starts| - 1;
    DumpOneIs(s, tables[m], starts[a].selects[m]);
    hide DumpOne, HasAll;
    var r := DumpOne(s, tables[m], starts[a].selects[m]).0;
    forall t | Dumped(r, t) ensures StagedFrom(r, tables, starts, t) {
      if Dumped(s, t) {
        StagedGrows(s, r, tables, starts, t);
      } else {
        assert t == tables[m] && HasAll(r.rows, t, starts[a].selects[m]);
      }
    }
  }

  // ---------- any number of starts ----------

  lemma StagedMore(s: Tables, tables: seq<string>, starts: seq<Start>, n: nat)
    requires n <= |starts| && StartsFit(tables, starts) && CompleteIsStaged(s, tables, starts[..n])
    ensures CompleteIsStaged(s, tables, starts)
  {
    hide HasAll;
    forall t | Dumped(s, t) ensures StagedFrom(s, tables, starts, t) {
      assert StagedFrom(s, tables, starts[..n], t);
      var a, m :| 0 <= a < n && 0 <= m < |tables| && tables[m] == t && HasAll(s.rows, t, starts[..n][a].selects[m]);
      assert HasAll(s.rows, t, starts[a].selects[m]);
    }
  }

  lemma Reopened(s: Tables, tables: seq<string>, starts: seq<Start>)
    requires StartsFit(tables, starts) && CompleteIsStaged(s, tables, starts)
    ensures CompleteIsStaged(Tables(Unclaimed(s.rows), s.markers), tables, starts)
  {
    var r := Tables(Unclaimed(s.rows), s.markers);
    forall t | Dumped(r, t) ensures StagedFrom(r, tables, starts, t) {
      assert Dumped(s, t);
      StagedGrows(s, r, tables, starts, t);
    }
  }

  /** Once the first start has reached the database, what is complete is staged and a mark is there. */
  lemma {:induction false} AfterIs(s: Tables, tables: seq<string>, starts: seq<Start>)
    requires starts != [] && StartsFit(tables, starts) && tables != [] && starts[0].reached
    ensures var (r, ok) := After(s, tables, starts);
      var last := starts[|starts| - 1];
      && CompleteIsStaged(r, tables, starts) && r.markers != map[]
      && (ok ==> forall i :: 0 <= i < |tables| ==> Dumped(r, tables[i]))
      && (last.reached && (forall i :: 0 <= i < |tables| ==> last.selects[i].Rows?) ==> ok)
  {
    var n := |starts| - 1;
    var start := if n == 0 then EMPTY else
      var was := After(s, tables, starts[..n]).0; Tables(Unclaimed(was.rows), was.markers);
    if n > 0 {
      AfterIs(s, tables, starts[..n]);
      StagedMore(After(s, tables, starts[..n]).0, tables, starts, n);
      Reopened(After(s, tables, starts[..n]).0, tables, starts);
    }
    hide After, CompleteIsStaged, Unclaimed, Dump;
    assert CompleteIsStaged(start, tables, starts) by { if n == 0 { NothingComplete(tables, starts); } }
    DumpIs(start, tables, starts);
    AfterStep(s, tables, starts);
  }

  lemma NothingComplete(tables: seq<string>, starts: seq<Start>)
    requires StartsFit(tables, starts)
    ensures CompleteIsStaged(EMPTY, tables, starts)
  {}

  lemma AfterStep(s: Tables, tables: seq<string>, starts: seq<Start>)
    requires starts != [] && StartsFit(tables, starts)
    ensures var n := |starts| - 1;
      After(s, tables, starts) ==
        Connect(if n == 0 then s else After(s, tables, starts[..n]).0, n == 0, starts[n].reached, tables, starts[n].selects)
  {}

  /** If the first start did not reach the database, no later one ever dumps. */
  lemma {:induction false} NeverDumped(s: Tables, tables: seq<string>, starts: seq<Start>)
    requires starts != [] && StartsFit(tables, starts) && !starts[0].reached
    ensures var (r, ok) := After(s, tables, starts); r == EMPTY && ok == (|starts| > 1)
  {
    AfterStep(s, tables, starts);
    if |starts| > 1 { NeverDumped(s, tables, starts[..|starts| - 1]); }
    hide After, Dump;
  }

  /** An interrupted dump is finished at the first start whose selects succeed, exactly when the first start of the
      slot had reached the database: then every table is complete, and every row with an id that the select of a
      complete table gave is staged. */
  lemma DumpResumesIff(s: Tables, tables: seq<string>, starts: seq<Start>)
    requires starts != [] && StartsFit(tables, starts) && tables != []
    requires var last := starts[|starts| - 1]; last.reached && forall i :: 0 <= i < |tables| ==> last.selects[i].Rows?
    ensures var r := After(s, tables, starts).0;
      && (starts[0].reached <==> forall i :: 0 <= i < |tables| ==> Dumped(r, tables[i]))
      && (starts[0].reached ==> forall i :: 0 <= i < |tables| ==> StagedFrom(r, tables, starts, tables[i]))
  {
    if starts[0].reached {
      AfterIs(s, tables, starts);
    } else {
      NeverDumped(s, tables, starts);
      assert !Dumped(EMPTY, tables[0]);
    }
  }
}
