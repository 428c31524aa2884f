/**
  The resource budget value type of the bot: four independent resource
  fields (minerals, vespene, food and larva) with componentwise arithmetic.
  The source stores each field as a `u32`; here each is a `nat`. The two
  operators that panic in the source even without overflow carry that
  condition as a precondition: subtraction requires that no field
  underflows, and division requires a nonzero divisor.
 */
module Budgets {

  /** The handle of a node (lobe) in the dataflow graph. */
  type NodeHdl = nat

  datatype Budget = Budget(minerals: nat, vespene: nat, food: nat, larva: nat)

  /** A budget tagged with the handle of the lobe it is for or from. */
  datatype LobeBudget = LobeBudget(lobe: NodeHdl, budget: Budget)

  const U32_MAX: nat := 0xFFFF_FFFF

  /** Every field of `b` is representable as a `u32`. */
  predicate FitsU32(b: Budget) {
    b.minerals <= U32_MAX && b.vespene <= U32_MAX && b.food <= U32_MAX && b.larva <= U32_MAX
  }

  /** The default budget: every field zero, so below every budget. */
  function Zero(): (r: Budget)
    ensures forall b :: LessEq(r, b)
  {
    Budget(0, 0, 0, 0)
  }

  /** `LobeBudget::is_zero`: the carried budget equals the default one. */
  function IsZero(lb: LobeBudget): (r: bool)
    ensures r <==> lb.budget.minerals == 0 && lb.budget.vespene == 0
                   && lb.budget.food == 0 && lb.budget.larva == 0
  {
    lb.budget == Zero()
  }

  /** Fieldwise order: every field of `a` is at most the same field of `b`. */
  predicate LessEq(a: Budget, b: Budget) {
    a.minerals <= b.minerals && a.vespene <= b.vespene && a.food <= b.food && a.larva <= b.larva
  }

  /** Every field of `b` is strictly below `k`. */
  predicate AllBelow(b: Budget, k: nat) {
    b.minerals < k && b.vespene < k && b.food < k && b.larva < k
  }

  /** Fieldwise addition; the sum is at least each operand. */
  function Add(a: Budget, b: Budget): (r: Budget)
    ensures LessEq(a, r) && LessEq(b, r)
  {
    Budget(a.minerals + b.minerals, a.vespene + b.vespene, a.food + b.food, a.larva + b.larva)
  }

  /** Subtraction; the source panics on `u32` underflow, so no field of `b` may exceed `a`'s. */
  function Sub(a: Budget, b: Budget): (r: Budget)
    requires LessEq(b, a)
    ensures Add(r, b) == a
  {
    Budget(a.minerals - b.minerals, a.vespene - b.vespene, a.food - b.food, a.larva - b.larva)
  }

  /** Multiplication of every field by the scalar `k`: zero for `k == 0`, at least `b` otherwise. */
  function Scale(b: Budget, k: nat): (r: Budget)
    ensures k == 0 ==> r == Zero()
    ensures k > 0 ==> LessEq(b, r)
  {
    Budget(b.minerals * k, b.vespene * k, b.food * k, b.larva * k)
  }

  /** Floor division of every field by the scalar `k`, which must be nonzero. */
  function Div(b: Budget, k: nat): (r: Budget)
    requires k > 0
    ensures LessEq(Scale(r, k), b) && AllBelow(Sub(b, Scale(r, k)), k)
  {
    Budget(b.minerals / k, b.vespene / k, b.food / k, b.larva / k)
  }

  /** Only the quotient lies within one divisor below the dividend. */
  lemma QuotientUnique(x: nat, k: nat, q: nat)
    requires k > 0 && q * k <= x < q * k + k
    ensures q == x / k
  {
    var d := x / k;
    assert d * k <= x < d * k + k;
    if q < d {
      MulMono(q + 1, d, k);
    } else if q > d {
      MulMono(d + 1, q, k);
    }
  }

  /** Multiplication by a natural number is monotone. */
  lemma MulMono(a: nat, b: nat, k: nat)
    requires a <= b
    ensures a * k <= b * k
  {
  }

  /** Fieldwise maximum. */
  function Max(a: Budget, b: Budget): Budget {
    Budget(if a.minerals >= b.minerals then a.minerals else b.minerals,
           if a.vespene >= b.vespene then a.vespene else b.vespene,
           if a.food >= b.food then a.food else b.food,
           if a.larva >= b.larva then a.larva else b.larva)
  }

  /**
    Saturating fieldwise subtraction: each field is `a - b` when `a` exceeds
    `b` and zero otherwise. Adding `b` back gives the fieldwise maximum, and
    the result never exceeds `a`.
   */
  function ClampSub(a: Budget, b: Budget): (r: Budget)
    ensures Add(r, b) == Max(a, b)
    ensures LessEq(r, a)
    ensures LessEq(b, a) ==> r == Sub(a, b)
  {
    Budget(if a.minerals > b.minerals then a.minerals - b.minerals else 0,
           if a.vespene > b.vespene then a.vespene - b.vespene else 0,
           if a.food > b.food then a.food - b.food else 0,
           if a.larva > b.larva then a.larva - b.larva else 0)
  }

  // Algebra of the operators.

  /** The default budget is the identity of addition. */
  lemma AddZero(b: Budget)
    ensures Add(Zero(), b) == b && Add(b, Zero()) == b
  {
  }

  lemma AddCommutes(a: Budget, b: Budget)
    ensures Add(a, b) == Add(b, a)
  {
  }

  lemma AddAssociates(a: Budget, b: Budget, c: Budget)
    ensures Add(Add(a, b), c) == Add(a, Add(b, c))
  {
  }

  /** Adding then subtracting the same budget is the identity. */
  lemma AddThenSub(a: Budget, b: Budget)
    ensures LessEq(b, Add(a, b)) && Sub(Add(a, b), b) == a
  {
  }

  /** Addition cancels on the right. */
  lemma AddCancels(a: Budget, b: Budget, c: Budget)
    requires Add(a, c) == Add(b, c)
    ensures a == b
  {
    assert a.minerals + c.minerals == b.minerals + c.minerals;
  }

  /** Multiplying by `k + 1` adds one more copy. */
  lemma ScaleStep(b: Budget, k: nat)
    ensures Scale(b, 0) == Zero()
    ensures Scale(b, k + 1) == Add(Scale(b, k), b)
  {
  }

  /** Scaling distributes over addition. */
  lemma ScaleAdd(a: Budget, b: Budget, k: nat)
    ensures Scale(Add(a, b), k) == Add(Scale(a, k), Scale(b, k))
  {
    assert (a.minerals + b.minerals) * k == a.minerals * k + b.minerals * k;
    assert (a.vespene + b.vespene) * k == a.vespene * k + b.vespene * k;
    assert (a.food + b.food) * k == a.food * k + b.food * k;
    assert (a.larva + b.larva) * k == a.larva * k + b.larva * k;
  }

  /** The quotient of floor division is the unique value the contract of `Div` describes. */
  lemma {:induction false} DivUnique(b: Budget, k: nat, q: Budget)
    requires k > 0
    requires LessEq(Scale(q, k), b) && AllBelow(Sub(b, Scale(q, k)), k)
    ensures q == Div(b, k)
  {
    QuotientUnique(b.minerals, k, q.minerals);
    QuotientUnique(b.vespene, k, q.vespene);
    QuotientUnique(b.food, k, q.food);
    QuotientUnique(b.larva, k, q.larva);
  }
}
