/** Plain from-scratch evaluation of a query on a set of sources: no memory, no revisions.
    This is what the incremental engine has to agree with. */
module FromScratch {
  import opened Query

  type Sources = seq<Text>

  function TextAt(S: Stages, src: Sources, f: File): Text {
    if f < |src| then src[f] else S.noText
  }

  /** What one evaluation yields: its value, its demands in order, its own diagnostics. */
  datatype Made = Made(value: Value, deps: seq<QueryKey>, diags: seq<Diag>)

  function Make(S: Stages, src: Sources, key: QueryKey): (m: Made)
    requires Registered(S)
    ensures Lower(m.deps, Rank(key))
    decreases Rank(key), 3, 0, 0
  {
    if key.SourceKey? then Made(TextV(TextAt(S, src, key.f)), [], []) else Replay(S, src, key, [], [])
  }

  /** The evaluator from the point where it has `answers` to its demands `deps`. */
  function Replay(S: Stages, src: Sources, key: QueryKey, answers: seq<Value>, deps: seq<QueryKey>): (m: Made)
    requires Registered(S) && Lower(deps, Rank(key))
    ensures Lower(m.deps, Rank(key)) && deps <= m.deps
    decreases Rank(key), 2, Phase(key, answers), Left(S, key, answers)
  {
    match Next(S, key, answers)
    case Demand(k) =>
      NextProgress(S, key, answers, TextV(S.noText));
      var v := Make(S, src, k).value;
      NextProgress(S, key, answers, v);
      Replay(S, src, key, answers + [v], deps + [k])
    case Done(v, d) => Made(v, deps, d)
    case Collect => Made(Report(S, answers, Gather(S, src, Rank(key), deps)), deps, [])
  }

  /** The keys visited so far and the diagnostics they emitted themselves. */
  datatype Walked = Walked(order: seq<QueryKey>, diags: seq<Diag>)

  /** Depth-first over the demands of `keys`: every reachable key once, after what it demands;
      keys visited before are skipped. */
  function Visit(S: Stages, src: Sources, bound: nat, keys: seq<QueryKey>, w: Walked): (r: Walked)
    requires Registered(S) && Lower(keys, bound)
    ensures w.order <= r.order && w.diags <= r.diags
    decreases bound, 1, |keys|, 0
  {
    if keys == [] then w
    else
      var key := keys[0];
      var next := if key in w.order then w
        else Emit(key, Make(S, src, key), Visit(S, src, Rank(key), Make(S, src, key).deps, w));
      Visit(S, src, bound, keys[1..], next)
  }

  function Emit(key: QueryKey, m: Made, w: Walked): Walked {
    Walked(w.order + [key], w.diags + m.diags)
  }

  /** The diagnostics reachable from `keys`, dependencies first. */
  function Gather(S: Stages, src: Sources, bound: nat, keys: seq<QueryKey>): seq<Diag>
    requires Registered(S) && Lower(keys, bound)
    decreases bound, 1, |keys|, 1
  {
    Visit(S, src, bound, keys, Walked([], [])).diags
  }
}
