/**
  * The tables of one Realm in memory, as the code that runs on them sees them.
  */
module Stage2Engine {
  import opened Stage2
  import opened Stage2Steps
  import opened Stage2Inv
  import opened Stage2Theorems
  import opened Stage2Meaning

  /**
    * The tables of one Realm with everything that acts on them.  The state changes only by actions of
    * the machine.
    */
  class Engine {
    var s: St
    // How many interrupts the commands have found pending.
    var irqs: nat

    ghost predicate Valid()
      reads this
    {
      Inv(s) && AlignInv(s)
    }

    constructor (levels: nat, unit: nat, da: bool)
      requires levels > 0
      ensures Valid() && s == Created(levels, unit, da)
    {
      InitHolds(Created(levels, unit, da));
      s, irqs := Created(levels, unit, da), 0;
    }

    lemma Sound()
      requires Valid()
      ensures Inv(s) && AlignInv(s)
    {
    }

    method Do(a: Act)
      requires Valid() && Enabled(s, a)
      modifies `s
      ensures Valid() && s == Step(old(s), a)
    {
      StepKeepsInv(s, a);
      StepKeepsAlign(s, a);
      s := Step(s, a);
    }

    // Whether an interrupt is pending, which may be at any time.
    method Poll() returns (irq: bool)
      requires Valid()
      modifies `irqs
      ensures Valid() && irqs == old(irqs) + if irq then 1 else 0
    {
      irq := *;
      if irq {
        irqs := irqs + 1;
      }
    }

    // Any number of hardware walks and evictions.
    method Walk()
      requires Valid()
      modifies `s
      ensures Valid() && s == old(s).(tlb := s.tlb)
    {
      var n: nat := *;
      while n > 0
        invariant Valid() && s == old(s).(tlb := s.tlb)
      {
        var c: Cached := *;
        if WorldEnabled(s, Fill(c)) {
          Do(World(Fill(c)));
        } else {
          Do(World(Forget(c)));
        }
        n := n - 1;
      }
    }
  }
}
