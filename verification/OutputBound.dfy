/** The output cap of a paid chat request: the request is prepared again until its own size and its cap fit the
    model's context window together. */
module OutputBound {
  import opened Common

  type byte = bv8

  datatype Schema = Inline | ResponsesInline | FileManifest | ResponsesFileManifest | OtherSchema

  datatype Strategy = RequestBytes | WholeWindow

  datatype Snapshot = Snapshot(maxOutput: int, window: int, catalogMax: int)

  datatype Plan = Plan(body: seq<byte>, inputBound: int, cap: int, schema: Schema, strategy: Strategy)

  datatype BoundError = TransportFailed | UnknownSchema | UnsupportedSchema | UnboundedBody | UnsafeBound | NotConverged

  /** What the provider transport answers to its n-th call with a cap; calls need not agree with each other. */
  datatype Transport = Transport(prepare: (nat, int) -> Option<seq<byte>>, detect: seq<byte> -> Option<Schema>, hash: seq<byte> -> nat)

  const MAX_ITERATIONS: nat := 4
  const FRAMING: int := 64

  function SafeInputUpperBound(body: seq<byte>): Option<int> {
    if |body| == 0 || |body| > MAX_INT64 - FRAMING then None else Some(|body| + FRAMING)
  }

  predicate FileSchema(s: Schema) {
    s == FileManifest || s == ResponsesFileManifest
  }

  predicate InlineSchema(s: Schema) {
    s == Inline || s == ResponsesInline
  }

  /** What one prepared body leaves for the output. */
  function NextCap(snap: Snapshot, body: seq<byte>): Result<int, BoundError> {
    match SafeInputUpperBound(body)
    case None => Err(UnboundedBody)
    case Some(bound) => if snap.window - bound <= 0 then Err(UnsafeBound) else Ok(Min(snap.maxOutput, snap.window - bound))
  }

  function Iterate(t: Transport, snap: Snapshot, schema: Schema, i: nat, cap: int, prevBound: int, prevHash: nat): Result<Plan, BoundError>
    decreases MAX_ITERATIONS - i
  {
    if i >= MAX_ITERATIONS then Err(NotConverged)
    else
      match t.prepare(i + 1, cap)
      case None => Err(TransportFailed)
      case Some(body) =>
        if t.detect(body).None? then Err(UnknownSchema)
        else if t.detect(body).value != schema then Err(UnsupportedSchema)
        else
          match NextCap(snap, body)
          case Err(e) => Err(e)
          case Ok(next) =>
            if i > 0 && cap == next && prevBound == next && prevHash == t.hash(body)
            then Ok(Plan(body, SafeInputUpperBound(body).value, next, schema, RequestBytes))
            else Iterate(t, snap, schema, i + 1, next, next, t.hash(body))
  }

  function Converged(t: Transport, snap: Snapshot): Result<Plan, BoundError> {
    if snap.maxOutput <= 0 then Err(UnsafeBound)
    else
      match t.prepare(0, snap.maxOutput)
      case None => Err(TransportFailed)
      case Some(body) =>
        if t.detect(body).None? then Err(UnknownSchema)
        else
          var schema := t.detect(body).value;
          if FileSchema(schema) then
            if snap.window <= 0 || snap.maxOutput > snap.catalogMax then Err(UnsafeBound)
            else Ok(Plan(body, snap.window, snap.maxOutput, schema, WholeWindow))
          else if !InlineSchema(schema) then Err(UnsupportedSchema)
          else if snap.window <= 0 then
            if SafeInputUpperBound(body).None? then Err(UnboundedBody)
            else Ok(Plan(body, SafeInputUpperBound(body).value, snap.maxOutput, schema, RequestBytes))
          else Iterate(t, snap, schema, 0, snap.maxOutput, 0, 0)
  }

  /** The loop as written; `calls` counts the requests made to the transport. */
  method PrepareConverged(t: Transport, snap: Snapshot) returns (r: Result<Plan, BoundError>, calls: nat)
    ensures r == Converged(t, snap)
    ensures calls <= 5
    ensures r.Ok? ==> exists i :: 0 <= i < calls && t.prepare(i, r.value.cap) == Some(r.value.body)
  {
    calls := 0;
    var cap := snap.maxOutput;
    if cap <= 0 { return Err(UnsafeBound), calls; }
    var initial := t.prepare(0, cap);
    calls := 1;
    if initial.None? { return Err(TransportFailed), calls; }
    var detected := t.detect(initial.value);
    if detected.None? { return Err(UnknownSchema), calls; }
    var schema := detected.value;
    if FileSchema(schema) {
      if snap.window <= 0 || cap > snap.catalogMax { return Err(UnsafeBound), calls; }
      return Ok(Plan(initial.value, snap.window, cap, schema, WholeWindow)), calls;
    }
    if !InlineSchema(schema) { return Err(UnsupportedSchema), calls; }
    if snap.window <= 0 {
      var bound := SafeInputUpperBound(initial.value);
      if bound.None? { return Err(UnboundedBody), calls; }
      return Ok(Plan(initial.value, bound.value, cap, schema, RequestBytes)), calls;
    }
    var previousHash, previousBound := 0, 0;
    var iteration := 0;
    while iteration < MAX_ITERATIONS
      invariant iteration <= MAX_ITERATIONS && calls == iteration + 1
      invariant Iterate(t, snap, schema, iteration, cap, previousBound, previousHash) == Converged(t, snap)
    {
      var body := t.prepare(iteration + 1, cap);
      calls := calls + 1;
      if body.None? { return Err(TransportFailed), calls; }
      var again := t.detect(body.value);
      if again.None? { return Err(UnknownSchema), calls; }
      if again.value != schema { return Err(UnsupportedSchema), calls; }
      var bound := SafeInputUpperBound(body.value);
      if bound.None? { return Err(UnboundedBody), calls; }
      var remaining := snap.window - bound.value;
      if remaining <= 0 { return Err(UnsafeBound), calls; }
      var next := snap.maxOutput;
      if remaining < next { next := remaining; }
      var hash := t.hash(body.value);
      if iteration > 0 && cap == next && previousBound == next && previousHash == hash {
        return Ok(Plan(body.value, bound.value, next, schema, RequestBytes)), calls;
      }
      previousHash, previousBound, cap := hash, next, next;
      iteration := iteration + 1;
    }
    return Err(NotConverged), calls;
  }

  // ---------- soundness ----------

  ghost predicate FitsWindow(t: Transport, snap: Snapshot, p: Plan) {
    && 0 < p.cap == Min(snap.maxOutput, snap.window - p.inputBound)
    && p.inputBound == |p.body| + FRAMING
    && p.inputBound + p.cap <= snap.window
    && (exists i: nat :: 1 <= i <= MAX_ITERATIONS && t.prepare(i, p.cap) == Some(p.body))
    && t.detect(p.body) == Some(p.schema)
  }

  lemma {:induction false} IterateFits(t: Transport, snap: Snapshot, schema: Schema, i: nat, cap: int, prevBound: int, prevHash: nat)
    requires snap.maxOutput > 0 && Iterate(t, snap, schema, i, cap, prevBound, prevHash).Ok?
    ensures FitsWindow(t, snap, Iterate(t, snap, schema, i, cap, prevBound, prevHash).value)
    decreases MAX_ITERATIONS - i
  {
    var body := t.prepare(i + 1, cap).value;
    var next := NextCap(snap, body).value;
    if !(i > 0 && cap == next && prevBound == next && prevHash == t.hash(body)) {
      IterateFits(t, snap, schema, i + 1, next, next, t.hash(body));
    }
  }

  /** Whatever the transport answers: an accepted inline request was prepared with exactly the cap that is returned, and
      input bound plus cap stay inside a known window. */
  lemma AcceptedRequestFitsTheWindow(t: Transport, snap: Snapshot)
    requires Converged(t, snap).Ok? && snap.window > 0 && InlineSchema(Converged(t, snap).value.schema)
    ensures FitsWindow(t, snap, Converged(t, snap).value)
  {
    var schema := t.detect(t.prepare(0, snap.maxOutput).value).value;
    if !FileSchema(schema) {
      IterateFits(t, snap, schema, 0, snap.maxOutput, 0, 0);
    }
  }

  /** Every accepted request, whatever its schema and window: its body was prepared with the cap that is returned and is of the
      schema that is returned. A file manifest takes the whole known window and the full cap, which the catalog must allow; without
      a known window an inline request takes its own bytes and the full cap. */
  lemma AcceptedRequest(t: Transport, snap: Snapshot)
    requires Converged(t, snap).Ok?
    ensures var p := Converged(t, snap).value;
            && 0 < p.cap <= snap.maxOutput
            && (FileSchema(p.schema) || InlineSchema(p.schema)) && t.detect(p.body) == Some(p.schema)
            && (exists i: nat :: i <= MAX_ITERATIONS && t.prepare(i, p.cap) == Some(p.body))
            && (p.strategy == WholeWindow <==> FileSchema(p.schema))
            && p.inputBound == (if FileSchema(p.schema) then snap.window else |p.body| + FRAMING)
            && (FileSchema(p.schema) ==> snap.window > 0 && p.cap == snap.maxOutput <= snap.catalogMax)
            && (FileSchema(p.schema) || snap.window <= 0 ==> p.cap == snap.maxOutput && t.prepare(0, p.cap) == Some(p.body))
  {
    var schema := t.detect(t.prepare(0, snap.maxOutput).value).value;
    if InlineSchema(schema) && snap.window > 0 {
      IterateFits(t, snap, schema, 0, snap.maxOutput, 0, 0);
      IterateKeepsSchema(t, snap, schema, 0, snap.maxOutput, 0, 0);
    }
  }

  lemma {:induction false} IterateKeepsSchema(t: Transport, snap: Snapshot, schema: Schema, i: nat, cap: int, prevBound: int, prevHash: nat)
    requires Iterate(t, snap, schema, i, cap, prevBound, prevHash).Ok?
    ensures Iterate(t, snap, schema, i, cap, prevBound, prevHash).value.schema == schema
    ensures Iterate(t, snap, schema, i, cap, prevBound, prevHash).value.strategy == RequestBytes
    decreases MAX_ITERATIONS - i
  {
    var body := t.prepare(i + 1, cap).value;
    var next := NextCap(snap, body).value;
    if !(i > 0 && cap == next && prevBound == next && prevHash == t.hash(body)) {
      IterateKeepsSchema(t, snap, schema, i + 1, next, next, t.hash(body));
    }
  }

  /** Requests without an iteration: when they are accepted. */
  lemma FirstRequestDecides(t: Transport, snap: Snapshot, body: seq<byte>, schema: Schema)
    requires snap.maxOutput > 0 && t.prepare(0, snap.maxOutput) == Some(body) && t.detect(body) == Some(schema)
    ensures FileSchema(schema) ==> (Converged(t, snap).Ok? <==> snap.window > 0 && snap.maxOutput <= snap.catalogMax)
    ensures InlineSchema(schema) && snap.window <= 0 ==> (Converged(t, snap).Ok? <==> 0 < |body| <= MAX_INT64 - FRAMING)
    ensures schema == OtherSchema ==> Converged(t, snap) == Err(UnsupportedSchema)
  {
  }

  // ---------- convergence ----------

  /** A transport that answers every call with the same cap alike, with inline bodies of `size(cap)` bytes. */
  ghost predicate Steady(t: Transport, snap: Snapshot, schema: Schema, body: int -> seq<byte>, size: int -> nat) {
    && snap.maxOutput > 0 && InlineSchema(schema)
    && forall cap: int :: 0 < cap <= snap.maxOutput ==>
         && (forall n: nat :: t.prepare(n, cap) == Some(body(cap)))
         && |body(cap)| == size(cap) && 0 < size(cap) <= MAX_INT64 - FRAMING
         && t.detect(body(cap)) == Some(schema)
  }

  lemma SteadyNext(t: Transport, snap: Snapshot, schema: Schema, body: int -> seq<byte>, size: int -> nat, cap: int)
    requires Steady(t, snap, schema, body, size) && 0 < cap <= snap.maxOutput
    ensures NextCap(snap, body(cap)) == if snap.window - (size(cap) + FRAMING) <= 0 then Err(UnsafeBound)
                                        else Ok(Min(snap.maxOutput, snap.window - (size(cap) + FRAMING)))
  {
  }

  /** When the size of the request does not depend on the cap, it converges as soon as anything is left for output. */
  lemma ConvergesForConstantSize(t: Transport, snap: Snapshot, schema: Schema, body: int -> seq<byte>, length: nat)
    requires Steady(t, snap, schema, body, cap => length) && snap.window > 0
    ensures Converged(t, snap).Ok? <==> length + FRAMING < snap.window
    ensures Converged(t, snap).Ok? ==> Converged(t, snap).value.cap == Min(snap.maxOutput, snap.window - (length + FRAMING))
  {
    SteadyNext(t, snap, schema, body, cap => length, snap.maxOutput);
    if length + FRAMING < snap.window {
      var next := Min(snap.maxOutput, snap.window - (length + FRAMING));
      SteadyNext(t, snap, schema, body, cap => length, next);
      assert t.prepare(0, snap.maxOutput) == Some(body(snap.maxOutput)) && t.prepare(1, snap.maxOutput) == Some(body(snap.maxOutput));
      assert t.prepare(2, next) == Some(body(next)) && t.prepare(3, next) == Some(body(next));
      TwoStepsSettle(t, snap, schema, body, next);
    } else {
      assert t.prepare(0, snap.maxOutput) == Some(body(snap.maxOutput)) && t.prepare(1, snap.maxOutput) == Some(body(snap.maxOutput));
    }
  }

  lemma TwoStepsSettle(t: Transport, snap: Snapshot, schema: Schema, body: int -> seq<byte>, next: int)
    requires 0 < next <= snap.maxOutput && t.detect(body(next)) == Some(schema) && NextCap(snap, body(next)) == Ok(next)
    requires t.prepare(2, next) == Some(body(next)) && t.prepare(3, next) == Some(body(next))
    ensures forall h: nat :: var r := Iterate(t, snap, schema, 1, next, next, h); r.Ok? && r.value.cap == next
  {
    forall h: nat ensures var r := Iterate(t, snap, schema, 1, next, next, h); r.Ok? && r.value.cap == next {
      assert Iterate(t, snap, schema, 2, next, next, t.hash(body(next))).Ok?;
    }
  }

  /** Decimal digits of a positive cap, as a JSON body spells it. */
  function Digits(n: int): nat
    decreases if n < 10 then 0 else n
  {
    if n < 10 then 1 else 1 + Digits(n / 10)
  }

  lemma {:induction false} DigitsMonotone(a: int, b: int)
    requires 0 < a <= b
    ensures 1 <= Digits(a) <= Digits(b)
    decreases b
  {
    if a >= 10 { DigitsMonotone(a / 10, b / 10); }
  }

  /** The cap after one more preparation of a body of `base` bytes plus the digits of its cap. */
  function Step(snap: Snapshot, base: nat, cap: int): int {
    Min(snap.maxOutput, snap.window - (base + Digits(cap) + FRAMING))
  }

  /** The only way a body that spells its cap can keep moving: the first correction drops the cap below a power of ten,
      and the byte this saves lifts the next one back over it. */
  predicate FlipsDigits(snap: Snapshot, base: nat) {
    var first := Step(snap, base, snap.maxOutput);
    var second := Step(snap, base, first);
    Digits(first) < Digits(second)
  }

  lemma StepsOf(snap: Snapshot, base: nat) returns (c1: int, c2: int, c3: int)
    requires snap.maxOutput > 0 && base + Digits(snap.maxOutput) + FRAMING < snap.window
    ensures c1 == Step(snap, base, snap.maxOutput) && c2 == Step(snap, base, c1) && c3 == Step(snap, base, c2)
    ensures 0 < c1 <= c3 <= c2 <= snap.maxOutput && 0 < Step(snap, base, c3)
    ensures Digits(c1) <= Digits(c3) <= Digits(c2) <= Digits(snap.maxOutput)
    ensures base + Digits(c1) + FRAMING < snap.window && base + Digits(c2) + FRAMING < snap.window
    ensures base + Digits(c3) + FRAMING < snap.window
    ensures FlipsDigits(snap, base) <==> c3 != c2
    ensures FlipsDigits(snap, base) ==> c1 != c2
  {
    c1 := Step(snap, base, snap.maxOutput);
    DigitsMonotone(c1, snap.maxOutput);
    c2 := Step(snap, base, c1);
    DigitsMonotone(c1, c2);
    DigitsMonotone(c2, snap.maxOutput);
    c3 := Step(snap, base, c2);
    DigitsMonotone(c1, c3);
    DigitsMonotone(c3, c2);
  }

  /** For bodies that spell the cap in decimal (and whose hashes differ when they do), preparation converges exactly when
      the request leaves room and the cap does not flip across a power of ten. */
  lemma ConvergesExactlyWithoutFlip(t: Transport, snap: Snapshot, schema: Schema, body: int -> seq<byte>, base: nat)
    requires Steady(t, snap, schema, body, cap => base + Digits(cap)) && snap.window > 0
    requires forall a: int, b: int :: 0 < a <= snap.maxOutput && 0 < b <= snap.maxOutput && a != b ==> t.hash(body(a)) != t.hash(body(b))
    ensures Converged(t, snap).Ok? <==> base + Digits(snap.maxOutput) + FRAMING < snap.window && !FlipsDigits(snap, base)
  {
    var m := snap.maxOutput;
    SteadyNext(t, snap, schema, body, cap => base + Digits(cap), m);
    assert t.prepare(0, m) == Some(body(m)) && t.prepare(1, m) == Some(body(m));
    if base + Digits(m) + FRAMING < snap.window {
      SteadyIterations(t, snap, schema, body, base);
      assert Converged(t, snap) == Iterate(t, snap, schema, 0, m, 0, 0);
    }
  }

  lemma SteadyIterations(t: Transport, snap: Snapshot, schema: Schema, body: int -> seq<byte>, base: nat)
    requires Steady(t, snap, schema, body, cap => base + Digits(cap)) && base + Digits(snap.maxOutput) + FRAMING < snap.window
    requires forall a: int, b: int :: 0 < a <= snap.maxOutput && 0 < b <= snap.maxOutput && a != b ==> t.hash(body(a)) != t.hash(body(b))
    ensures Iterate(t, snap, schema, 0, snap.maxOutput, 0, 0).Ok? <==> !FlipsDigits(snap, base)
  {
    var m := snap.maxOutput;
    var c1, c2, c3 := StepsOf(snap, base);
    SteadyStep(t, snap, schema, body, base, m);
    SteadyStep(t, snap, schema, body, base, c1);
    SteadyStep(t, snap, schema, body, base, c2);
    SteadyStep(t, snap, schema, body, base, c3);
    UnfoldIterations(t, snap, schema, body, m, c1, c2, c3, Step(snap, base, c3));
    assert c1 != m ==> t.hash(body(m)) != t.hash(body(c1));
    assert c1 != c2 ==> t.hash(body(c1)) != t.hash(body(c2));
    assert c2 != c3 ==> t.hash(body(c2)) != t.hash(body(c3));
  }

  lemma SteadyStep(t: Transport, snap: Snapshot, schema: Schema, body: int -> seq<byte>, base: nat, cap: int)
    requires Steady(t, snap, schema, body, cap => base + Digits(cap))
    requires 0 < cap <= snap.maxOutput && base + Digits(cap) + FRAMING < snap.window
    ensures (forall n: nat :: t.prepare(n, cap) == Some(body(cap))) && t.detect(body(cap)) == Some(schema)
    ensures NextCap(snap, body(cap)) == Ok(Step(snap, base, cap))
  {
    SteadyNext(t, snap, schema, body, cap => base + Digits(cap), cap);
  }

  /** The four iterations written out for known bodies. */
  lemma UnfoldIterations(t: Transport, snap: Snapshot, schema: Schema, body: int -> seq<byte>, c0: int, c1: int, c2: int, c3: int, c4: int)
    requires t.prepare(1, c0) == Some(body(c0)) && t.prepare(2, c1) == Some(body(c1))
    requires t.prepare(3, c2) == Some(body(c2)) && t.prepare(4, c3) == Some(body(c3))
    requires t.detect(body(c0)) == t.detect(body(c1)) == t.detect(body(c2)) == t.detect(body(c3)) == Some(schema)
    requires NextCap(snap, body(c0)) == Ok(c1) && NextCap(snap, body(c1)) == Ok(c2)
    requires NextCap(snap, body(c2)) == Ok(c3) && NextCap(snap, body(c3)) == Ok(c4)
    ensures Iterate(t, snap, schema, 0, c0, 0, 0).Ok? <==>
              || (c1 == c2 && t.hash(body(c0)) == t.hash(body(c1)))
              || (c2 == c3 && t.hash(body(c1)) == t.hash(body(c2)))
              || (c3 == c4 && t.hash(body(c2)) == t.hash(body(c3)))
  {
    var r3 := Iterate(t, snap, schema, 3, c3, c3, t.hash(body(c2)));
    assert Iterate(t, snap, schema, 4, c4, c4, t.hash(body(c3))) == Err(NotConverged);
    assert r3.Ok? <==> c3 == c4 && t.hash(body(c2)) == t.hash(body(c3));
    var r2 := Iterate(t, snap, schema, 2, c2, c2, t.hash(body(c1)));
    assert r2.Ok? <==> (c2 == c3 && t.hash(body(c1)) == t.hash(body(c2))) || r3.Ok?;
    var r1 := Iterate(t, snap, schema, 1, c1, c1, t.hash(body(c0)));
    assert r1.Ok? <==> (c1 == c2 && t.hash(body(c0)) == t.hash(body(c1))) || r2.Ok?;
  }

  /** A concrete flip: with 1000 output tokens allowed and 1003 left beside the digits, the cap alternates between 999 and
      1000 for ever, although 999 would fit. */
  lemma FlipExample(base: nat)
    ensures var snap := Snapshot(1000, base + FRAMING + 1003, 1000);
            FlipsDigits(snap, base) && Step(snap, base, 1000) == 999 && Step(snap, base, 999) == 1000
  {
    assert Digits(1000) == 1 + Digits(100) && Digits(100) == 1 + Digits(10) && Digits(10) == 2;
    assert Digits(999) == 1 + Digits(99) && Digits(99) == 2;
  }
}
