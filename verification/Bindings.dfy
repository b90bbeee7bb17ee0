/**
 The reference counting of iotjs_binding.cpp: wrappers, argument lists and handler calls.  Objects do
 not influence one another's counts, so the engine here follows the count of one arbitrary counted
 value, `it`: what is proved for any `it` is proved for every object.
 */
module Bindings {
  import opened Outcomes

  /** An engine value.  Strings and objects are counted; `id` tells them apart. */
  datatype Value = Undefined | Null | Bool(b: bool) | Number(n: int) | String(id: nat) | Object(id: nat) {
    predicate Counted() {
      String? || Object?
    }
  }

  /** A wrapper: a value, and whether the wrapper gives up a reference when it goes. */
  class JObject {
    const val: Value
    const unrefAtClose: bool

    constructor (val: Value, unrefAtClose: bool)
      ensures this.val == val && this.unrefAtClose == unrefAtClose
    {
      this.val, this.unrefAtClose := val, unrefAtClose;
    }
  }

  /** The references to `it` that a value stands for. */
  function Refs(it: Value, v: Value): nat {
    if v.Counted() && v == it then 1 else 0
  }

  function Owns(it: Value, w: JObject): nat {
    if w.unrefAtClose then Refs(it, w.val) else 0
  }

  /** Those of the wrappers that own a reference to `it`. */
  ghost function Owners(it: Value, ws: set<JObject>): set<JObject> {
    set w | w in ws && Owns(it, w) == 1
  }

  lemma OwnersPlus(it: Value, ws: set<JObject>, w: JObject)
    requires w !in ws
    ensures |Owners(it, ws + {w})| == |Owners(it, ws)| + Owns(it, w)
  {
    if Owns(it, w) == 1 {
      assert Owners(it, ws + {w}) == Owners(it, ws) + {w};
    } else {
      assert Owners(it, ws + {w}) == Owners(it, ws);
    }
  }

  lemma OwnersMinus(it: Value, ws: set<JObject>, w: JObject)
    requires w in ws
    ensures |Owners(it, ws - {w})| == |Owners(it, ws)| - Owns(it, w)
  {
    OwnersPlus(it, ws - {w}, w);
    assert ws - {w} + {w} == ws;
  }

  class Engine {
    const it: Value
    var count: nat               // the engine's reference count of `it`
    ghost var held: nat          // references to `it` that the engine itself holds
    ghost var live: set<JObject> // the wrappers that there are, of `it` and of anything else

    /** Reference conservation: every reference is the engine's, or is owned by a live wrapper. */
    ghost predicate Valid()
      reads this
    {
      count == held + |Owners(it, live)|
    }

    constructor (it: Value, held: nat)
      ensures Valid() && this.it == it && this.held == held && live == {}
    {
      this.it, count, this.held, live := it, held, held, {};
    }

    method Ref(v: Value)
      modifies this`count
      ensures count == old(count) + Refs(it, v)
    {
      if v.Counted() && v == it {
        count := count + 1;
      }
    }

    method Unref(v: Value)
      requires Refs(it, v) <= count
      modifies this`count
      ensures count == old(count) - Refs(it, v)
    {
      if v.Counted() && v == it {
        count := count - 1;
      }
    }

    /** The engine makes a value, or finds it, and hands a reference to it to a new wrapper. */
    method Make(v: Value) returns (w: JObject)
      requires Valid()
      modifies this
      ensures Valid() && fresh(w) && w.val == v && w.unrefAtClose
      ensures live == old(live) + {w} && held == old(held) && count == old(count) + Refs(it, v)
    {
      Ref(v);
      w := new JObject(v, true);
      OwnersPlus(it, live, w);
      live := live + {w};
    }

    method Copy(x: JObject) returns (w: JObject)
      requires Valid() && x in live
      modifies this
      ensures Valid() && fresh(w) && w.val == x.val && w.unrefAtClose
      ensures live == old(live) + {w} && held == old(held) && count == old(count) + Refs(it, x.val)
    {
      w := new JObject(x.val, true);
      Ref(x.val);
      OwnersPlus(it, live, w);
      live := live + {w};
    }

    /** Wraps a raw value: with needUnref the wrapper takes over a reference that the engine has
        handed out, without it the wrapper borrows. */
    method Wrap(v: Value, needUnref: bool) returns (w: JObject)
      requires Valid() && (needUnref ==> Refs(it, v) <= held)
      modifies this
      ensures Valid() && fresh(w) && w.val == v && w.unrefAtClose == needUnref
      ensures live == old(live) + {w} && held == old(held) - Owns(it, w) && count == old(count)
    {
      w := new JObject(v, needUnref);
      OwnersPlus(it, live, w);
      held, live := held - Owns(it, w), live + {w};
    }

    method Destroy(w: JObject)
      requires Valid() && w in live
      modifies this
      ensures Valid() && live == old(live) - {w} && held == old(held)
      ensures count == old(count) - Owns(it, w)
    {
      OwnersMinus(it, live, w);
      if w.unrefAtClose {
        Unref(w.val);
      }
      live := live - {w};
    }

    /** The engine hands out a raw value, and a reference with it. */
    method HandOut(v: Value)
      requires Valid()
      modifies this`count, this`held
      ensures Valid() && held == old(held) + Refs(it, v) && count == old(count) + Refs(it, v)
    {
      Ref(v);
      held := held + Refs(it, v);
    }

    /** The engine gets a reference of its own to what is wrapped. */
    method Keep(w: JObject)
      requires Valid() && w in live
      modifies this`count, this`held
      ensures Valid() && held == old(held) + Refs(it, w.val) && count == old(count) + Refs(it, w.val)
    {
      Ref(w.val);
      held := held + Refs(it, w.val);
    }
  }

  ghost function Elements(ws: seq<JObject>): set<JObject> {
    set w | w in ws
  }

  ghost predicate Distinct(ws: seq<JObject>) {
    forall i, j :: 0 <= i < j < |ws| ==> ws[i] != ws[j]
  }

  class ArgList {
    const engine: Engine
    const capacity: nat
    var argv: seq<JObject>

    /** The list's wrappers own what they wrap, are live, and are its own. */
    ghost predicate Valid()
      reads this, engine
    {
      && engine.Valid() && |argv| <= capacity
      && (forall i :: 0 <= i < |argv| ==> argv[i].unrefAtClose && argv[i] in engine.live)
      && Distinct(argv)
    }

    constructor (engine: Engine, capacity: nat)
      requires engine.Valid()
      ensures Valid() && this.engine == engine && this.capacity == capacity && argv == []
    {
      this.engine, this.capacity, argv := engine, capacity, [];
    }

    method Add(x: JObject)
      requires Valid() && |argv| < capacity && x in engine.live
      modifies this`argv, engine
      ensures Valid() && |argv| == |old(argv)| + 1 && argv[..|old(argv)|] == old(argv)
      ensures var w := argv[|argv| - 1]; fresh(w) && w.val == x.val && engine.live == old(engine.live) + {w}
      ensures engine.held == old(engine.held) && engine.count == old(engine.count) + Refs(engine.it, x.val)
    {
      var w := engine.Copy(x);
      argv := argv + [w];
    }

    /** Adding a raw value takes over the reference behind it: a wrapper that owns it is copied, and
        then goes. */
    method AddRaw(v: Value)
      requires Valid() && |argv| < capacity && Refs(engine.it, v) <= engine.held
      modifies this`argv, engine
      ensures Valid() && |argv| == |old(argv)| + 1 && argv[..|old(argv)|] == old(argv)
      ensures var w := argv[|argv| - 1]; fresh(w) && w.val == v && engine.live == old(engine.live) + {w}
      ensures engine.count == old(engine.count) && engine.held == old(engine.held) - Refs(engine.it, v)
    {
      var tmp := engine.Wrap(v, true);
      Add(tmp);
      engine.Destroy(tmp);
    }

    /** What the constructor of JHandlerInfo does. */
    method AddAllBorrowed(values: seq<Value>)
      requires Valid() && argv == [] && |values| <= capacity
      modifies this`argv, engine
      ensures Valid() && |argv| == |values| && forall i :: 0 <= i < |values| ==> argv[i].val == values[i]
      ensures fresh(Elements(argv)) && engine.live == old(engine.live) + Elements(argv)
      ensures engine.held == old(engine.held)
    {
      for i := 0 to |values|
        invariant Valid() && |argv| == i && forall j :: 0 <= j < i ==> argv[j].val == values[j]
        invariant fresh(Elements(argv)) && engine.live == old(engine.live) + Elements(argv)
        invariant engine.held == old(engine.held)
      {
        AddBorrowed(values[i]);
      }
    }

    /** What it does for each argument. */
    method AddBorrowed(v: Value)
      requires Valid() && |argv| < capacity
      modifies this`argv, engine
      ensures Valid() && |argv| == |old(argv)| + 1 && argv[..|old(argv)|] == old(argv)
      ensures var w := argv[|argv| - 1];
              && fresh(w) && w.val == v && engine.live == old(engine.live) + {w}
              && Elements(argv) == old(Elements(argv)) + {w}
      ensures engine.held == old(engine.held)
    {
      var arg := engine.Wrap(v, false);
      Add(arg);
      engine.Destroy(arg);
      assert argv == old(argv) + [argv[|argv| - 1]];
    }

    /** The wrapper at i goes, and its place is taken by a copy of x, which therefore must be another. */
    method Set(i: nat, x: JObject)
      requires Valid() && i < |argv| && x in engine.live && x != argv[i]
      modifies this`argv, engine
      ensures Valid() && |argv| == |old(argv)| && argv == old(argv)[i := argv[i]]
      ensures fresh(argv[i]) && argv[i].val == x.val
      ensures engine.live == old(engine.live) - {old(argv)[i]} + {argv[i]}
      ensures engine.held == old(engine.held)
      ensures engine.count == old(engine.count) - Refs(engine.it, old(argv)[i].val) + Refs(engine.it, x.val)
    {
      engine.Destroy(argv[i]);
      var w := engine.Copy(x);
      argv := argv[i := w];
    }

    /** The destructor: every wrapper goes.  A list made to hold arguments must have been given one. */
    method Free()
      requires Valid() && (capacity == 0 || argv != [])
      modifies this`argv, engine
      ensures engine.Valid() && argv == [] && engine.held == old(engine.held)
      ensures engine.live == old(engine.live) - Elements(old(argv))
    {
      while argv != []
        invariant Valid() && engine.held == old(engine.held)
        invariant argv <= old(argv) && engine.live == old(engine.live) - Elements(old(argv)[|argv|..])
        decreases |argv|
      {
        var last := |argv| - 1;
        var w := argv[last];
        assert old(argv)[last..] == [w] + old(argv)[|argv|..];
        argv := argv[..last];
        engine.Destroy(w);
      }
    }
  }

  /** What the body of a native handler may do with the call it handles. */
  datatype Step =
    | ReturnArg(i: nat)
    | ReturnThis
    | ReturnMade(v: Value)     // a wrapper made in the handler, returned, and gone with its scope
    | ReturnRaw(v: Value)      // JVal::Number and JVal::Bool
    | ThrowMade(v: Value)

  class HandlerInfo {
    const engine: Engine
    const function_: JObject
    const this_: JObject
    const args: ArgList
    var result: Option<Value>
    var thrown: bool

    ghost predicate Valid()
      reads this, engine, args
    {
      && args.engine == engine && args.Valid()
      && !function_.unrefAtClose && !this_.unrefAtClose && function_ != this_
      && function_ in engine.live && this_ in engine.live
    }

    /** The wrappers of the call itself. */
    ghost function Own(): set<JObject>
      reads this, args
    {
      {function_, this_} + Elements(args.argv)
    }

    /** Borrows the function and `this`, and copies every argument. */
    constructor (engine: Engine, function_: Value, this_: Value, values: seq<Value>)
      requires engine.Valid()
      modifies engine
      ensures Valid() && this.engine == engine && fresh(args) && result == None && !thrown
      ensures args.capacity == |values| && |args.argv| == |values| && this.this_.val == this_
      ensures forall i :: 0 <= i < |values| ==> args.argv[i].val == values[i]
      ensures fresh(Own()) && engine.live == old(engine.live) + Own() && engine.held == old(engine.held)
    {
      this.engine := engine;
      var f := engine.Wrap(function_, false);
      var t := engine.Wrap(this_, false);
      this.function_, this.this_ := f, t;
      args := new ArgList(engine, |values|);
      result, thrown := None, false;
      new;
      args.AddAllBorrowed(values);
    }

    /** The engine gets a reference of its own to what is returned. */
    method Return(ret: JObject)
      requires Valid() && ret in engine.live
      modifies this`result, engine`count, engine`held
      ensures Valid() && result == Some(ret.val)
      ensures engine.held == old(engine.held) + Refs(engine.it, ret.val)
    {
      engine.Keep(ret);
      result := Some(ret.val);
    }

    method Throw(ret: JObject)
      requires Valid() && !thrown && ret in engine.live
      modifies this`result, this`thrown, engine`count, engine`held
      ensures Valid() && result == Some(ret.val) && thrown
      ensures engine.held == old(engine.held) + Refs(engine.it, ret.val)
    {
      engine.Keep(ret);
      result := Some(ret.val);
      thrown := true;
    }

    /** Returning a raw value returns the reference behind it: the count does not change. */
    method ReturnValue(v: Value)
      requires Valid() && Refs(engine.it, v) <= engine.held
      modifies this`result, engine
      ensures Valid() && result == Some(v)
      ensures engine.count == old(engine.count) && engine.held == old(engine.held)
      ensures engine.live == old(engine.live)
    {
      var tmp := engine.Wrap(v, true);
      Return(tmp);
      engine.Destroy(tmp);
    }

    method Do(step: Step)
      requires Valid() && Allowed(step, |args.argv|, thrown)
      modifies this`result, this`thrown, engine
      ensures Valid() && thrown == (old(thrown) || step.ThrowMade?)
      ensures result == Some(Outcome(step, this_.val, Vals(args.argv)))
      ensures engine.held == old(engine.held) + Refs(engine.it, Outcome(step, this_.val, Vals(args.argv)))
      ensures engine.live == old(engine.live)
    {
      match step
      case ReturnArg(i) => Return(args.argv[i]);
      case ReturnThis => Return(this_);
      case ReturnMade(v) => var ret := engine.Make(v); Return(ret); engine.Destroy(ret);
      case ReturnRaw(v) => ReturnValue(v);
      case ThrowMade(v) => var ret := engine.Make(v); Throw(ret); engine.Destroy(ret);
    }

    /** The destructor: the arguments go, and the borrowing wrappers. */
    method Free()
      requires Valid() && (args.capacity == 0 || args.argv != [])
      modifies args`argv, engine
      ensures engine.Valid() && engine.held == old(engine.held)
      ensures engine.live == old(engine.live) - old(Own())
    {
      args.Free();
      engine.Destroy(this_);
      engine.Destroy(function_);
    }
  }

  function Vals(ws: seq<JObject>): seq<Value> {
    seq(|ws|, i requires 0 <= i < |ws| => ws[i].val)
  }

  /** What a handler may do: name an argument that is there, return raw only what is not counted, and
      throw once. */
  predicate Allowed(step: Step, argc: nat, thrown: bool) {
    match step
    case ReturnArg(i) => i < argc
    case ReturnRaw(v) => !v.Counted()
    case ThrowMade(_) => !thrown
    case _ => true
  }

  predicate AllAllowed(body: seq<Step>, argc: nat, thrown: bool) {
    body == [] || (Allowed(body[0], argc, thrown) && AllAllowed(body[1..], argc, thrown || body[0].ThrowMade?))
  }

  /** The value that a step returns or throws. */
  function Outcome(step: Step, this_: Value, values: seq<Value>): Value
    requires Allowed(step, |values|, false)
  {
    match step
    case ReturnArg(i) => values[i]
    case ReturnThis => this_
    case _ => step.v
  }

  function GivenBack(it: Value, body: seq<Step>, this_: Value, values: seq<Value>, thrown: bool): nat
    requires AllAllowed(body, |values|, thrown)
  {
    if body == [] then 0
    else Refs(it, Outcome(body[0], this_, values))
         + GivenBack(it, body[1..], this_, values, thrown || body[0].ThrowMade?)
  }

  /** A whole native call: wrappers come and go, and what is left is one reference for each return. */
  method HandlerCall(engine: Engine, function_: Value, this_: Value, values: seq<Value>, body: seq<Step>)
    returns (result: Option<Value>, thrown: bool)
    requires engine.Valid() && AllAllowed(body, |values|, false)
    modifies engine
    ensures engine.Valid() && engine.live == old(engine.live)
    ensures engine.count == old(engine.count) + GivenBack(engine.it, body, this_, values, false)
    ensures body == [] ==> result == None
    ensures |body| == 1 ==> result == Some(Outcome(body[0], this_, values)) && thrown == body[0].ThrowMade?
    ensures |body| == 1 ==> engine.count == old(engine.count) + Refs(engine.it, result.value)
  {
    var info := new HandlerInfo(engine, function_, this_, values);
    ghost var argv, live := info.args.argv, engine.live;
    assert Vals(argv) == values;
    var k := 0;
    while k < |body|
      invariant 0 <= k <= |body|
      invariant info.Valid() && info.engine == engine && info.this_.val == this_
      invariant info.args.argv == argv && info.args.capacity == |values|
      invariant AllAllowed(body[k..], |values|, info.thrown)
      invariant engine.live == live
      invariant engine.held + GivenBack(engine.it, body[k..], this_, values, info.thrown)
             == old(engine.held) + GivenBack(engine.it, body, this_, values, false)
      invariant k == 0 ==> info.result == None && !info.thrown
      invariant k == 1 ==> info.result == Some(Outcome(body[0], this_, values)) && info.thrown == body[0].ThrowMade?
    {
      info.Do(body[k]);
      assert body[k..][1..] == body[k + 1..];
      k := k + 1;
    }
    info.Free();
    assert engine.live == old(engine.live);
    result, thrown := info.result, info.thrown;
  }

  /** Anything that native code can do with wrappers of its own, which it names by the order of making. */
  datatype Op =
    | OpMake(v: Value)
    | OpBorrow(v: Value)
    | OpTakeOver(v: Value)   // of a reference that the engine hands out
    | OpCopy(k: nat)
    | OpKeep(k: nat)
    | OpDestroy(k: nat)

  /** A wrapper as a value, to say what such code has made. */
  datatype Made = Made(val: Value, unrefAtClose: bool)

  function Table(ws: seq<JObject>): seq<Made> {
    seq(|ws|, i requires 0 <= i < |ws| => Made(ws[i].val, ws[i].unrefAtClose))
  }

  function After(op: Op, table: seq<Made>): seq<Made> {
    match op
    case OpMake(v) => table + [Made(v, true)]
    case OpBorrow(v) => table + [Made(v, false)]
    case OpTakeOver(v) => table + [Made(v, true)]
    case OpCopy(k) => if k < |table| then table + [Made(table[k].val, true)] else table
    case OpKeep(_) => table
    case OpDestroy(k) => if k < |table| then table[..k] + table[k + 1..] else table
  }

  /** What the engine comes to hold. */
  function Kept(it: Value, op: Op, table: seq<Made>): nat {
    if op.OpKeep? && op.k < |table| then Refs(it, table[op.k].val) else 0
  }

  function AllKept(it: Value, ops: seq<Op>, table: seq<Made>): nat
    decreases |ops|
  {
    if ops == [] then 0 else Kept(it, ops[0], table) + AllKept(it, ops[1..], After(ops[0], table))
  }

  /** Reference conservation over any sequence of operations: the count is what the engine holds and
      what live wrappers own, after each of them; and when all wrappers made on the way have gone, what
      is left is what there was before and what the engine has kept. */
  method RunOps(engine: Engine, ops: seq<Op>)
    requires engine.Valid()
    modifies engine
    ensures engine.Valid() && engine.live == old(engine.live)
    ensures engine.held == old(engine.held) + AllKept(engine.it, ops, [])
    ensures engine.count == old(engine.count) + AllKept(engine.it, ops, [])
  {
    ghost var others := engine.live;
    var made: seq<JObject> := [];
    assert Table(made) == [];
    for n := 0 to |ops|
      invariant engine.Valid() && Live(engine, others, made)
      invariant engine.held + AllKept(engine.it, ops[n..], Table(made))
             == old(engine.held) + AllKept(engine.it, ops, [])
    {
      assert ops[n..][1..] == ops[n + 1..];
      made := RunOp(engine, ops[n], made, others);
    }
    while made != []
      invariant engine.Valid() && Live(engine, others, made)
      invariant engine.held == old(engine.held) + AllKept(engine.it, ops, [])
      decreases |made|
    {
      made := Drop(engine, made, 0, others);
    }
  }

  /** The live wrappers are some others and, each once, those made. */
  ghost predicate Live(engine: Engine, others: set<JObject>, made: seq<JObject>)
    reads engine
  {
    Distinct(made) && others !! Elements(made) && engine.live == others + Elements(made)
  }

  method RunOp(engine: Engine, op: Op, made: seq<JObject>, ghost others: set<JObject>) returns (now: seq<JObject>)
    requires engine.Valid() && Live(engine, others, made)
    modifies engine
    ensures engine.Valid() && Live(engine, others, now)
    ensures Table(now) == After(op, Table(made))
    ensures engine.held == old(engine.held) + Kept(engine.it, op, Table(made))
  {
    now := made;
    match op {
      case OpKeep(k) => if k < |made| { engine.Keep(made[k]); }
      case OpDestroy(k) => if k < |made| { now := Drop(engine, made, k, others); }
      case OpCopy(k) => if k < |made| { now := WithNew(engine, op, made, others); }
      case _ => now := WithNew(engine, op, made, others);
    }
  }

  method WithNew(engine: Engine, op: Op, made: seq<JObject>, ghost others: set<JObject>) returns (now: seq<JObject>)
    requires engine.Valid() && Live(engine, others, made)
    requires op.OpMake? || op.OpBorrow? || op.OpTakeOver? || (op.OpCopy? && op.k < |made|)
    modifies engine
    ensures engine.Valid() && engine.held == old(engine.held) && Live(engine, others, now)
    ensures Table(now) == After(op, Table(made))
  {
    var w;
    match op {
      case OpMake(v) => w := engine.Make(v);
      case OpBorrow(v) => w := engine.Wrap(v, false);
      case OpTakeOver(v) =>
        engine.HandOut(v);
        w := engine.Wrap(v, true);
      case OpCopy(k) => w := engine.Copy(made[k]);
    }
    now := made + [w];
  }

  /** A wrapper goes out of scope. */
  method Drop(engine: Engine, made: seq<JObject>, k: nat, ghost others: set<JObject>) returns (now: seq<JObject>)
    requires engine.Valid() && k < |made| && Live(engine, others, made)
    modifies engine
    ensures engine.Valid() && engine.held == old(engine.held) && Live(engine, others, now)
    ensures Table(now) == After(OpDestroy(k), Table(made)) && |now| == |made| - 1
  {
    engine.Destroy(made[k]);
    now := made[..k] + made[k + 1..];
    assert Elements(now) == Elements(made) - {made[k]};
  }
}
