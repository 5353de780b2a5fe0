/** Runs that end with a sink that is not the source table: one for each way a step can miss its
    condition in BackfillConvergence. All have one sink and one row, "a". */
module BackfillFailures {

  import opened Wrappers
  import opened BackfillRun
  import opened BackfillConvergence

  /** Some run leads from `s` to `t`. */
  ghost predicate Reaches(src: Source, s: State, t: State) {
    exists states, steps :: IsRun(src, states, steps) && states[0] == s && states[|steps|] == t
  }

  lemma ReachesSelf(src: Source, s: State)
    ensures Reaches(src, s, s)
  {
    var states, steps: seq<Step> := [s], [];
    assert IsRun(src, states, steps) && states[|steps|] == s;
  }

  lemma ReachesStep(src: Source, s: State, t: State, a: Step)
    requires Reaches(src, s, t) && Enabled(src, t, a)
    ensures Reaches(src, s, Next(src, t, a))
  {
    hide Enabled, Next;
    var states, steps :| IsRun(src, states, steps) && states[0] == s && states[|steps|] == t;
    var states', steps' := states + [Next(src, t, a)], steps + [a];
    assert IsRun(src, states', steps') && states'[|steps'|] == Next(src, t, a);
  }

  /** A finished run from the start whose sink is not the source table. */
  ghost predicate GoesWrong(src: Source, s: State, t: State) {
    Consistent(src) && Initial(s) && Reaches(src, s, t) && Finished(src, t) && !Right(src, t)
  }

  /** Dumping the row, seen at position `at`. */
  lemma DumpA(src: Source, at: nat, text: Text) returns (s: State, t: State)
    requires at <= |src.log| && TableAt(src, at) == map["a" := text]
    ensures Initial(s) && Reaches(src, s, t)
    ensures t == State(map["a" := Staged(text, false)], true, 0, 0, [[]], [map[]], map[], [])
  {
    hide Reaches;
    s := State(map[], false, 0, 0, [[]], [map[]], map[], []);
    var mid := Next(src, s, DumpRow("a", at));
    t := Next(src, mid, FinishDump(at));
    ReachesSelf(src, s);
    ReachesStep(src, s, s, DumpRow("a", at));
    ReachesStep(src, s, mid, FinishDump(at));
  }

  /** Claiming it. */
  lemma ClaimA(src: Source, s: State, t: State, text: Text) returns (u: State)
    requires Reaches(src, s, t) && t.rows == map["a" := Staged(text, false)] && t.dumped && t.workers == map[]
    ensures Reaches(src, s, u)
    ensures u == t.(rows := map["a" := Staged(text, true)], workers := map[0 := Work([("a", text)], 0, 0)])
  {
    hide Reaches;
    assert seq(1, k requires 0 <= k < 1 => (["a"][k], t.rows[["a"][k]].text)) == [("a", text)];
    u := Next(src, t, Claim(0, ["a"]));
    ReachesStep(src, s, t, Claim(0, ["a"]));
  }

  /** Giving it to the sink and marking it done. */
  lemma GiveAndMarkA(src: Source, s: State, t: State, text: Text) returns (u: State)
    requires Reaches(src, s, t) && |t.sinks| == 1 && t.workers == map[0 := Work([("a", text)], 0, 0)]
    ensures Reaches(src, s, u)
    ensures u == t.(rows := t.rows - {"a"}, sinks := [t.sinks[0]["a" := text]], workers := map[],
                    calls := t.calls + [(0, [("a", text)])])
  {
    hide Reaches;
    var mid := Next(src, t, Give(0));
    u := Next(src, mid, MarkDone(0));
    assert PutAll(t.sinks[0], [("a", text)][..0]) == t.sinks[0];
    ReachesStep(src, s, t, Give(0));
    ReachesStep(src, s, mid, MarkDone(0));
  }

  /** Reading a change of the staged row. */
  lemma ReadA(src: Source, s: State, t: State) returns (u: State)
    requires Reaches(src, s, t) && t.dumped && t.live < |src.log| && "a" in t.rows && |t.queues| == 1
    requires var c := src.log[t.live]; c.id == "a" && (c.Upd? ==> c.sent == Value)
    ensures Reaches(src, s, u)
    ensures var c := src.log[t.live];
      u == if c.Upd? then t.(live := t.live + 1, rows := t.rows["a" := Staged(c.text, t.rows["a"].claimed)])
           else t.(live := t.live + 1, queues := [t.queues[0] + [t.live]], rows := if c.Del? then t.rows - {"a"} else t.rows)
  {
    hide Reaches;
    assert seq(1, i requires 0 <= i < 1 => t.queues[i] + [t.live]) == [t.queues[0] + [t.live]];
    u := Next(src, t, ReadLive);
    ReachesStep(src, s, t, ReadLive);
  }

  /** Applying the only change that is queued. */
  lemma ApplyA(src: Source, s: State, t: State) returns (u: State)
    requires Reaches(src, s, t) && |src.log| > 0 && !src.log[0].Upd? && |t.sinks| == 1 && t.queues == [[0]]
    ensures Reaches(src, s, u) && u == t.(queues := [[]], sinks := [Changed(t.sinks[0], src.log[0])])
  {
    hide Reaches;
    assert [0][1..] == [] && t.queues[0 := []] == [[]];
    u := Next(src, t, ApplyLive(0));
    ReachesStep(src, s, t, ApplyLive(0));
  }

  /** A live update merged into a row between its claim and its mark-done is lost. */
  lemma UpdateOfClaimedRowIsLost(src: Source) returns (s: State, t: State)
    requires src == Source(map["a" := "1"], [Upd("a", "2", Value)])
    ensures GoesWrong(src, s, t)
  {
    hide Reaches;
    s, t := DumpA(src, 0, "1");
    t := ClaimA(src, s, t, "1");
    t := ReadA(src, s, t);
    t := GiveAndMarkA(src, s, t, "1");
    assert TableAt(src, 1) == map["a" := "2"] && t.sinks[0] == map["a" := "1"];
  }

  /** A row claimed while its insert is still queued is overwritten by that insert, although an update
      merged before the claim was newer. */
  lemma ClaimAheadOfQueueIsLost(src: Source) returns (s: State, t: State)
    requires src == Source(map[], [Ins("a", "1"), Upd("a", "2", Value)])
    ensures GoesWrong(src, s, t)
  {
    hide Reaches;
    assert TableAt(src, 1) == map["a" := "1"] && TableAt(src, 2) == map["a" := "2"];
    s, t := DumpA(src, 1, "1");
    t := ReadA(src, s, t);
    assert [] + [0] == [0];
    t := ReadA(src, s, t);
    assert t.rows == map["a" := Staged("2", false)];
    t := ClaimA(src, s, t, "2");
    t := GiveAndMarkA(src, s, t, "2");
    t := ApplyA(src, s, t);
    assert t.sinks[0] == map["a" := "1"];
  }

  /** A row deleted between its claim and the sink call comes back, and stays. */
  lemma DeleteOfClaimedRowIsUndone(src: Source) returns (s: State, t: State)
    requires src == Source(map["a" := "1"], [Del("a")])
    ensures GoesWrong(src, s, t)
  {
    hide Reaches;
    s, t := DumpA(src, 0, "1");
    t := ClaimA(src, s, t, "1");
    t := ReadA(src, s, t);
    assert [] + [0] == [0];
    t := ApplyA(src, s, t);
    t := GiveAndMarkA(src, s, t, "1");
    assert TableAt(src, 1) == map[] && t.sinks[0] == map["a" := "1"];
  }

  /** A row deleted while there was no slot stays in the sink for ever. */
  lemma RowOfOldSlotStays(src: Source) returns (s: State, t: State)
    requires src == Source(map["a" := "1"], [Del("a")])
    ensures GoesWrong(src, s, t)
  {
    hide Reaches;
    s, t := DumpA(src, 0, "1");
    t := ClaimA(src, s, t, "1");
    t := GiveAndMarkA(src, s, t, "1");
    assert t.rows == map[] && TableAt(src, 1) == map[];
    ReachesStep(src, s, t, NewEpoch(1));
    t := Next(src, t, NewEpoch(1));
    assert t.queues == [[]];
    ReachesStep(src, s, t, FinishDump(1));
    t := Next(src, t, FinishDump(1));
    assert t.sinks[0] == map["a" := "1"];
  }
}
