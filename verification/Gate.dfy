/** The one-token channel that serializes storage operations and token decisions. */
module Gate {
  import opened Session

  /** `Received`: the token was taken but the context has not been looked at again. */
  datatype Pc = Waiting | Received | Holding | Gone(acquired: bool)

  /** `channel` is the number of tokens in the buffer of capacity one. */
  datatype Gate = Gate(made: bool, channel: nat, users: map<nat, Pc>)

  datatype Label =
    | Arrive(user: nat)                  // lock: make the channel once, look at the context
    | Refuse(user: nat)                  // the context ended while waiting
    | Take(user: nat)
    | Check(user: nat, cancelled: bool)  // just acquired: keep the token or put it back
    | Unlock(user: nat)

  predicate At(g: Gate, j: nat, pc: Pc) { j in g.users && g.users[j] == pc }

  /** A send blocks when the buffer is full: the step is then not enabled. */
  function Apply(g: Gate, l: Label): Option<Gate> {
    match l
    case Arrive(j) =>
      if j in g.users then None
      else Some(Gate(true, if g.made then g.channel else 1, g.users[j := Waiting]))
    case Refuse(j) => if At(g, j, Waiting) then Some(g.(users := g.users[j := Gone(false)])) else None
    case Take(j) =>
      if At(g, j, Waiting) && g.channel > 0 then Some(g.(channel := g.channel - 1, users := g.users[j := Received])) else None
    case Check(j, cancelled) =>
      if !At(g, j, Received) then None
      else if !cancelled then Some(g.(users := g.users[j := Holding]))
      else if g.channel == 0 then Some(g.(channel := 1, users := g.users[j := Gone(false)]))
      else None
    case Unlock(j) =>
      if At(g, j, Holding) && g.channel == 0 then Some(g.(channel := 1, users := g.users[j := Gone(true)])) else None
  }

  ghost function Owners(g: Gate): set<nat> {
    set j | j in g.users && Owns(g.users[j])
  }

  /** The token is in the channel or with exactly one user. */
  ghost predicate Conserved(g: Gate) {
    if g.made then g.channel + |Owners(g)| == 1 else g.channel == 0 && g.users == map[]
  }

  ghost function Run(g: Gate, steps: seq<Label>): Option<Gate>
    decreases |steps|
  {
    if steps == [] then Some(g) else
    match Apply(g, steps[0])
    case None => None
    case Some(h) => Run(h, steps[1..])
  }

  const NEW: Gate := Gate(false, 0, map[])

  predicate Owns(pc: Pc) { pc.Received? || pc.Holding? }

  ghost function OtherOwners(g: Gate, j: nat): set<nat> {
    set i | i in g.users && i != j && Owns(g.users[i])
  }

  lemma OwnersSplit(g: Gate, j: nat)
    ensures Owners(g) == if j in g.users && Owns(g.users[j]) then OtherOwners(g, j) + {j} else OtherOwners(g, j)
    ensures |Owners(g)| == |OtherOwners(g, j)| + (if j in g.users && Owns(g.users[j]) then 1 else 0)
  {
    if j in g.users && Owns(g.users[j]) {
      assert Owners(g) == OtherOwners(g, j) + {j};
    } else {
      assert Owners(g) == OtherOwners(g, j);
    }
  }

  /** One user moved: the others own what they owned. */
  lemma OwnersStep(g: Gate, j: nat, h: Gate)
    requires j in h.users && h.users == g.users[j := h.users[j]]
    ensures OtherOwners(h, j) == OtherOwners(g, j)
    ensures |Owners(h)| == |Owners(g)| - (if j in g.users && Owns(g.users[j]) then 1 else 0) + (if Owns(h.users[j]) then 1 else 0)
  {
    OwnersSplit(g, j);
    OwnersSplit(h, j);
    assert OtherOwners(h, j) == OtherOwners(g, j);
  }

  lemma StepConserves(g: Gate, l: Label)
    requires Conserved(g) && Apply(g, l).Some?
    ensures Conserved(Apply(g, l).value)
  {
    OwnersStep(g, l.user, Apply(g, l).value);
    if !g.made { NoOwners(g); }
  }

  lemma NoOwners(g: Gate)
    requires g.users == map[]
    ensures Owners(g) == {}
  {
  }

  lemma {:induction false} RunConserves(g: Gate, steps: seq<Label>)
    requires Conserved(g) && Run(g, steps).Some?
    ensures Conserved(Run(g, steps).value)
    decreases |steps|
  {
    if steps != [] {
      StepConserves(g, steps[0]);
      RunConserves(Apply(g, steps[0]).value, steps[1..]);
    }
  }

  lemma Singleton(s: set<nat>, i: nat)
    requires i in s && |s| <= 1
    ensures s == {i}
  {
    assert |s - {i}| == |s| - 1;
  }

  /** In every run at most one user owns the token, and it can always give it back without blocking:
      on unlock, and when its context turns out to have ended just after it acquired it. */
  lemma AtMostOneInside(steps: seq<Label>, g: Gate, i: nat)
    requires Run(NEW, steps) == Some(g) && i in Owners(g)
    ensures forall j <- g.users :: g.users[j].Holding? || g.users[j].Received? ==> j == i
    ensures g.channel == 0
    ensures var back := if At(g, i, Holding) then Unlock(i) else Check(i, true);
            && Apply(g, back).Some? && Apply(g, back).value.channel == 1
            && Owners(Apply(g, back).value) == {}
            && Apply(g, back).value.users[i] == Gone(At(g, i, Holding))
  {
    RunConserves(NEW, steps);
    Singleton(Owners(g), i);
    var back := if At(g, i, Holding) then Unlock(i) else Check(i, true);
    OwnersStep(g, i, Apply(g, back).value);
    forall j <- g.users | g.users[j].Holding? || g.users[j].Received? ensures j == i {
      assert j in Owners(g);
    }
  }

  /** Nobody inside and nobody just arriving there: the token is available again. */
  lemma TokenIsNeverLost(steps: seq<Label>, g: Gate)
    requires Run(NEW, steps) == Some(g) && g.made && Owners(g) == {}
    ensures g.channel == 1
    ensures forall j <- g.users :: g.users[j].Waiting? ==> Apply(g, Take(j)).Some?
  {
    RunConserves(NEW, steps);
  }

  /** In every run, a waiting user that finds the token gets in exactly if its context lives, and then
      the token is back once it unlocks; if its context has ended it leaves the token where it was. */
  lemma WaitersGetIn(steps: seq<Label>, g: Gate, j: nat, cancelled: bool)
    requires Run(NEW, steps) == Some(g) && j in g.users && g.users[j].Waiting? && Owners(g) == {}
    ensures var taken := Apply(g, Take(j));
      && taken.Some?
      && var checked := Apply(taken.value, Check(j, cancelled));
      && checked.Some?
      && if cancelled then checked.value == g.(users := g.users[j := Gone(false)])
         else
           && checked.value.users[j] == Holding && Owners(checked.value) == {j} && checked.value.channel == 0
           && Apply(checked.value, Unlock(j)) == Some(g.(users := g.users[j := Gone(true)]))
  {
    RunConserves(NEW, steps);
    var taken := Apply(g, Take(j)).value;
    assert taken.users[j := Gone(false)] == g.users[j := Gone(false)];
    if !cancelled {
      var checked := Apply(taken, Check(j, false)).value;
      OwnersStep(g, j, taken);
      OwnersStep(taken, j, checked);
      assert j in Owners(checked);
      Singleton(Owners(checked), j);
      assert checked.users[j := Gone(true)] == g.users[j := Gone(true)];
    }
  }

  /** A context that ends while waiting leaves gate and token as they are; the first arrival makes the token. */
  lemma ArrivalsAndRefusals(g: Gate, j: nat)
    ensures j !in g.users ==>
      Apply(g, Arrive(j)) == Some(Gate(true, if g.made then g.channel else 1, g.users[j := Waiting]))
    ensures j in g.users && g.users[j].Waiting? ==> Apply(g, Refuse(j)) == Some(g.(users := g.users[j := Gone(false)]))
  {
  }
}
