/** The review budget of one pull request over every run: what its stored row says agrees with
    the passes that were really completed. */
module ReviewBudget {
  import opened Tables
  import opened Machine
  import opened History
  import opened Safety

  function Max(a: int, b: int): int {
    if a > b then a else b
  }

  /** The stored row at every crash point. */
  predicate ShapeOk(cfg: Cfg, b: PRState) {
    && 0 <= b.cycle <= Max(0, cfg.maxCycles)
    && b.cycle <= b.summaryCycle <= b.cycle + 1
    && (b.lastReviewed != "" <==> b.cycle >= 1)
    && (b.summaryId != "" <==> b.summaryCycle >= 1)
    && (b.noticePosted ==> b.cycle >= cfg.maxCycles)
  }

  /** Consecutive passes of an epoch: the first one sees the whole diff, each later one what
      changed since the head reviewed just before, or the whole diff as a fallback. */
  predicate ChainOk(ps: seq<Entry>)
    requires forall p | p in ps :: p.PassDone?
  {
    && (forall i | 0 <= i < |ps| :: ps[i].head != "")
    && (ps != [] ==> ps[0].scope == Full)
    && (forall i | 1 <= i < |ps| ::
          && (ps[i].scope == Delta(ps[i - 1].head) || ps[i].scope == Fallback(ps[i - 1].head))
          && ps[i].head != ps[i - 1].head)
  }

  predicate RowAgrees(b: PRState, ps: seq<Entry>)
    requires forall p | p in ps :: p.PassDone?
  {
    && b.cycle == |ps|
    && b.lastReviewed == if ps == [] then "" else ps[|ps| - 1].head
  }

  ghost predicate BudgetOk(cfg: Cfg, s: Sys, key: string) {
    var b := Budget(s.db, key);
    var ps := Passes(s.log, key);
    ShapeOk(cfg, b) && RowAgrees(b, ps) && ChainOk(ps)
  }

  lemma ChainGrows(ps: seq<Entry>, done: Entry, st: PRState)
    requires (forall p | p in ps :: p.PassDone?) && done.PassDone? && ChainOk(ps) && RowAgrees(st, ps)
    requires ScopeFits(st, done.scope) && done.head != st.lastReviewed && done.head != ""
    ensures ChainOk(ps + [done])
  {
  }

  lemma BudgetStep(cfg: Cfg, s: Sys, a: Action, key: string)
    requires Safe(cfg, s) && Enabled(cfg, s, a) && BudgetOk(cfg, s, key)
    ensures BudgetOk(cfg, Step(cfg, s, a), key)
  {
    PassesStep(cfg, s, a, key);
    BudgetWrites(cfg, s, a, key);
    if PassesKey(s, a, key) {
      ChainGrows(Passes(s.log, key), ThePass(s), Budget(s.db, key));
    }
  }

  /** In every reachable state, whatever crashed or failed: the stored cycle counts the passes
      completed since the last reset, the stored head is the last one reviewed, the row keeps
      its shape, and the passes chain. */
  lemma {:induction false} BudgetAgrees(cfg: Cfg, run: seq<Action>, s: Sys, key: string)
    requires Reaches(cfg, run, s)
    ensures BudgetOk(cfg, s, key)
  {
    if run != [] {
      var p := Exec(cfg, run[..|run| - 1]).value;
      BudgetAgrees(cfg, run[..|run| - 1], p, key);
      AlwaysSafe(cfg, run[..|run| - 1], p);
      BudgetStep(cfg, p, run[|run| - 1], key);
    }
  }
}
