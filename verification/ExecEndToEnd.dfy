/**
 The link between the daemon's followers and the streams the runner and the SDK see:
 what a follower has written is always a cut of the final log's stream from its cursor.
 */
module ExecEndToEnd {
  import opened ExecWire
  import opened ExecLog
  import opened ExecFollow
  import S = ExecStream

  /** What ndjsonWriter has put on the connection. */
  function Written(lines: seq<string>): string {
    if lines == [] then [] else Written(lines[..|lines| - 1]) + lines[|lines| - 1] + "\n"
  }

  lemma {:induction false} HistoryGrows(states: seq<State>, steps: seq<Step>, j: nat, k: nat)
    requires Run(states, steps) && j <= k < |states|
    ensures states[j].history <= states[k].history
    decreases k - j
  {
    if j < k {
      HistoryGrows(states, steps, j, k - 1);
      assert Possible(states[k - 1], steps[k - 1]) && states[k] == Apply(states[k - 1], steps[k - 1]);
    }
  }

  lemma {:induction false} WrittenIsWire(g: seq<Response>, h: seq<Response>, lo: nat, hi: nat)
    requires g <= h && lo <= hi <= |g|
    ensures Written(Lines(g, lo, hi)) == S.Wire(h, lo, hi)
    decreases hi - lo
  {
    hide Marshal;
    if lo < hi {
      WrittenIsWire(g, h, lo, hi - 1);
      assert Lines(g, lo, hi)[..hi - lo - 1] == Lines(g, lo, hi - 1);
      assert Lines(g, lo, hi)[hi - lo - 1] == Marshal(hi - 1, h[hi - 1]);
    }
  }

  /** At any point of any run, what a follower has written is a prefix of the stream of
      the log as it stands at any later point, from the follower's cursor on. */
  lemma FollowerIsCutStream(states: seq<State>, steps: seq<Step>, j: nat, k: nat, f: nat)
    requires Run(states, steps) && j <= k < |states| && f < |states[j].followers|
    requires From(states[j].followers[f].start) <= |states[k].history|
    ensures var h := states[k].history; var x := states[j].followers[f];
      exists cut: nat :: Written(x.delivered) == S.Received(h, From(x.start), cut)
  {
    Consecutive(states, steps, j, f);
    HistoryGrows(states, steps, j, k);
    hide Run;
    var g, h, x := states[j].history, states[k].history, states[j].followers[f];
    var n: nat :| n <= |g| && x.delivered == Upto(g, x.start, n);
    var lo := From(x.start);
    hide Marshal;
    if lo <= n {
      WrittenIsWire(g, h, lo, n);
      S.WireSplit(h, lo, n, |h|);
      hide Written, S.Wire;
      assert S.Received(h, lo, |S.Wire(h, lo, n)|) == S.Wire(h, lo, n);
    } else {
      assert S.Received(h, lo, 0) == [];
    }
  }
}
