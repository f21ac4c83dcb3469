/** Control-flow graphs and the machine that walks them, one statement or one terminator a
    step; any step may trap. Places hold values (struct cells shared between copies are not
    part of this model). */
module Mir {
  import opened Wrappers
  import opened Hir
  import opened Semantics

  datatype Operand =
    | Const(v: Value)
    | Place(local: nat, proj: seq<nat>)

  datatype Rvalue =
    | Use(opnd: Operand)
    | Compute(op: Op, args: seq<Operand>, contract: seq<Behavior>)
    | Payload(base: Operand, index: nat)
    | Duplicate(opnd: Operand)

  datatype MStmt = Set(dst: nat, proj: seq<nat>, val: Rvalue)

  /** `Pending` is the placeholder a block carries until it is closed. */
  datatype Term =
    | Pending
    | Goto(target: nat)
    | Branch(cond: Operand, thn: nat, els: nat)
    | Switch(scrut: Operand, arms: seq<(nat, nat)>, default: Option<nat>)
    | Leave(opnd: Operand)

  datatype BasicBlock = BasicBlock(id: nat, stmts: seq<MStmt>, term: Term)

  /** `locals[l]` is the symbol slot `l` belongs to; temporaries have none. */
  datatype Body = Body(params: nat, locals: seq<Option<Sym>>, blocks: seq<BasicBlock>)

  type Calls = (Def, seq<Value>) -> CallResult

  datatype Res = Returned(v: Value) | Trapped

  datatype Cfg = At(bb: nat, pc: nat, m: seq<Slot>) | Done(res: Res)

  // ---------- operands ----------

  function GetPath(v: Value, proj: seq<nat>): Option<Value>
    decreases |proj|
  {
    if proj == [] then Some(v)
    else if v.StructV? && proj[0] in v.fields then GetPath(v.fields[proj[0]], proj[1..])
    else None
  }

  /** Reading a moved-out or uninitialized local is a trap. */
  function Read(m: seq<Slot>, o: Operand): Option<Value> {
    match o
    case Const(v) => Some(v)
    case Place(l, proj) => if l < |m| && m[l].Live? then GetPath(m[l].v, proj) else None
  }

  function ReadAll(m: seq<Slot>, os: seq<Operand>): Option<seq<Value>> {
    if os == [] then Some([])
    else
      match Read(m, os[0])
      case None => None
      case Some(v) =>
        var rest := ReadAll(m, os[1..]);
        if rest.None? then None else Some([v] + rest.value)
  }

  // ---------- statements ----------

  /** Contract of argument `i` as the executor reads it: a missing entry consumes. */
  function ExecContract(contract: seq<Behavior>, i: nat): Behavior {
    if i < |contract| then contract[i] else Unknown
  }

  /** Storage shared under `BorrowMut` holds what the callee left in it. */
  function ShareBack(m: seq<Slot>, args: seq<Operand>, contract: seq<Behavior>, n: nat,
        outs: seq<Value>): (r: seq<Slot>)
    requires n <= |args|
    ensures |r| == |m|
  {
    if n == 0 then m
    else
      var g := ShareBack(m, args, contract, n - 1, outs);
      var a := args[n - 1];
      if ExecContract(contract, n - 1) != BorrowMut || a.Const? || |outs| < n then g
      else if a.local >= |g| || !g[a.local].Live? then g
      else
        match SetPath(g[a.local].v, a.proj, outs[n - 1])
        case Some(w) => g[a.local := Live(w)]
        case None => g
  }

  /** Consumed argument locals are emptied after the call. */
  function Empty(m: seq<Slot>, args: seq<Operand>, contract: seq<Behavior>, n: nat): (r: seq<Slot>)
    requires n <= |args|
    ensures |r| == |m|
  {
    if n == 0 then m
    else
      var g := Empty(m, args, contract, n - 1);
      var a := args[n - 1];
      if Consumes(ExecContract(contract, n - 1)) && a.Place? && a.local < |g| then g[a.local := Hole] else g
  }

  datatype Computed = Computed(v: Value, m: seq<Slot>)

  function Exec(calls: Calls, m: seq<Slot>, rv: Rvalue): (r: Option<Computed>)
    ensures r.Some? ==> |r.value.m| == |m|
  {
    match rv
    case Use(o) => var v := Read(m, o); if v.None? then None else Some(Computed(v.value, m))
    case Duplicate(o) => var v := Read(m, o); if v.None? then None else Some(Computed(v.value, m))
    case Payload(o, i) =>
      var v := Read(m, o);
      if v.None? || !v.value.VariantV? || |v.value.payload| <= i then None
      else Some(Computed(v.value.payload[i], m))
    case Compute(op, args, contract) =>
      var vs := ReadAll(m, args);
      if vs.None? then None
      else if op.Call? then
        match calls(op.def, vs.value)
        case CallTrap => None
        case CallDone(ret, outs) =>
          Some(Computed(ret, Empty(ShareBack(m, args, contract, |args|, outs), args, contract, |args|)))
      else
        var v := Apply(op, vs.value);
        if v.None? then None else Some(Computed(v.value, m))
  }

  function Store(m: seq<Slot>, dst: nat, proj: seq<nat>, v: Value): (r: Option<seq<Slot>>)
    ensures r.Some? ==> |r.value| == |m|
  {
    if dst >= |m| then None
    else if proj == [] then Some(m[dst := Live(v)])
    else if !m[dst].Live? then None
    else
      match SetPath(m[dst].v, proj, v)
      case Some(w) => Some(m[dst := Live(w)])
      case None => None
  }

  function ExecStmt(calls: Calls, m: seq<Slot>, s: MStmt): (r: Option<seq<Slot>>)
    ensures r.Some? ==> |r.value| == |m|
  {
    var c := Exec(calls, m, s.val);
    if c.None? then None else Store(c.value.m, s.dst, s.proj, c.value.v)
  }

  // ---------- control ----------

  /** The first listed arm with the discriminant, else the default. */
  function Select(arms: seq<(nat, nat)>, default: Option<nat>, tag: nat): Option<nat> {
    if arms == [] then default
    else if arms[0].0 == tag then Some(arms[0].1)
    else Select(arms[1..], default, tag)
  }

  function Jump(term: Term, m: seq<Slot>): Cfg {
    match term
    case Pending => Done(Trapped)
    case Goto(t) => At(t, 0, m)
    case Leave(o) => var v := Read(m, o); if v.None? then Done(Trapped) else Done(Returned(v.value))
    case Branch(c, t, f) =>
      var v := Read(m, c);
      if v.None? || !v.value.BoolV? then Done(Trapped) else At(if v.value.b then t else f, 0, m)
    case Switch(s, arms, default) =>
      var v := Read(m, s);
      if v.None? || !v.value.VariantV? then Done(Trapped)
      else
        var t := Select(arms, default, v.value.tag);
        if t.None? then Done(Trapped) else At(t.value, 0, m)
  }

  /** One statement or one terminator. */
  function Tick(blocks: seq<BasicBlock>, calls: Calls, c: Cfg): Cfg {
    match c
    case Done(_) => c
    case At(bb, pc, m) =>
      if bb >= |blocks| then Done(Trapped)
      else if pc < |blocks[bb].stmts| then
        var m1 := ExecStmt(calls, m, blocks[bb].stmts[pc]);
        if m1.None? then Done(Trapped) else At(bb, pc + 1, m1.value)
      else Jump(blocks[bb].term, m)
  }

  function Run(blocks: seq<BasicBlock>, calls: Calls, c: Cfg, n: nat): Cfg
    decreases n
  {
    if n == 0 then c else Run(blocks, calls, Tick(blocks, calls, c), n - 1)
  }

  ghost predicate Reaches(blocks: seq<BasicBlock>, calls: Calls, c: Cfg, d: Cfg) {
    exists n: nat :: Run(blocks, calls, c, n) == d
  }

  lemma {:induction false} RunCompose(blocks: seq<BasicBlock>, calls: Calls, c: Cfg, n: nat, k: nat)
    ensures Run(blocks, calls, c, n + k) == Run(blocks, calls, Run(blocks, calls, c, n), k)
    decreases n
  {
    if n > 0 {
      RunCompose(blocks, calls, Tick(blocks, calls, c), n - 1, k);
    }
  }

  lemma ReachesTrans(blocks: seq<BasicBlock>, calls: Calls, c: Cfg, d: Cfg, e: Cfg)
    requires Reaches(blocks, calls, c, d) && Reaches(blocks, calls, d, e)
    ensures Reaches(blocks, calls, c, e)
  {
    var n: nat :| Run(blocks, calls, c, n) == d;
    var k: nat :| Run(blocks, calls, d, k) == e;
    RunCompose(blocks, calls, c, n, k);
  }

  lemma ReachesStep(blocks: seq<BasicBlock>, calls: Calls, c: Cfg)
    ensures Reaches(blocks, calls, c, Tick(blocks, calls, c))
  {
    assert Run(blocks, calls, c, 1) == Run(blocks, calls, Tick(blocks, calls, c), 0);
  }

  lemma ReachesRefl(blocks: seq<BasicBlock>, calls: Calls, c: Cfg)
    ensures Reaches(blocks, calls, c, c)
  {
    assert Run(blocks, calls, c, 0) == c;
  }

  /** A finished run stays finished, so a body has at most one result. */
  lemma {:induction false} DoneUnique(blocks: seq<BasicBlock>, calls: Calls, c: Cfg, r: Res, s: Res)
    requires Reaches(blocks, calls, c, Done(r)) && Reaches(blocks, calls, c, Done(s))
    ensures r == s
  {
    var n: nat :| Run(blocks, calls, c, n) == Done(r);
    var k: nat :| Run(blocks, calls, c, k) == Done(s);
    if n <= k {
      RunCompose(blocks, calls, c, n, k - n);
      DoneStays(blocks, calls, r, k - n);
    } else {
      RunCompose(blocks, calls, c, k, n - k);
      DoneStays(blocks, calls, s, n - k);
    }
  }

  lemma {:induction false} DoneStays(blocks: seq<BasicBlock>, calls: Calls, r: Res, n: nat)
    ensures Run(blocks, calls, Done(r), n) == Done(r)
    decreases n
  {
    if n > 0 {
      DoneStays(blocks, calls, r, n - 1);
    }
  }
}
