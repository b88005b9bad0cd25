/** The landing page's state: the rotating role headline and the expanded feature sections. */
module Landing {

  /** The headline roles, shown one at a time. */
  const Roles: seq<string> := [
    "Data Engineers", "Analytics Engineers", "Data Analysts", "ML Engineers", "Product Managers"]

  /** One interval tick: `(prev + 1) % roles.length`. */
  function NextRole(prev: nat): (r: nat)
    ensures r < |Roles|
    ensures prev + 1 < |Roles| ==> r == prev + 1
    ensures prev + 1 == |Roles| ==> r == 0
  {
    (prev + 1) % |Roles|
  }

  /** The role index after `n` ticks from `start`. */
  function Ticks(n: nat, start: nat): nat {
    if n == 0 then start else NextRole(Ticks(n - 1, start))
  }

  /** Ticking advances the index by the number of ticks, modulo the number of roles. */
  lemma {:induction false} TicksAdvance(n: nat, start: nat)
    requires start < |Roles|
    ensures Ticks(n, start) == (start + n) % |Roles|
  {
    if n > 0 {
      TicksAdvance(n - 1, start);
      var m := |Roles|;
      var q := (start + n - 1) / m;
      assert start + n - 1 == q * m + Ticks(n - 1, start);
      assert start + n == q * m + (Ticks(n - 1, start) + 1);
      if Ticks(n - 1, start) + 1 == m {
        assert start + n == (q + 1) * m;
      }
    }
  }

  /** Five ticks bring the headline back to the role it started from. */
  lemma FiveTicksRestore(start: nat)
    requires start < |Roles|
    ensures Ticks(5, start) == start
  {
    TicksAdvance(5, start);
  }

  /** `expandedSections[i]` as the page reads it: an absent key is collapsed. */
  predicate Expanded(sections: map<nat, bool>, i: nat) {
    i in sections && sections[i]
  }

  /** `{ ...prev, [i]: !prev[i] }`. */
  function ToggledSections(sections: map<nat, bool>, i: nat): (r: map<nat, bool>)
    ensures i in r && Expanded(r, i) == !Expanded(sections, i)
    ensures forall j :: j != i ==> (j in r <==> j in sections)
    ensures forall j :: j != i && j in sections ==> r[j] == sections[j]
  {
    sections[i := !Expanded(sections, i)]
  }

  /** Toggling a section twice leaves it as it looked: expanded exactly when it was. */
  lemma ToggleTwiceLooksTheSame(sections: map<nat, bool>, i: nat, j: nat)
    ensures Expanded(ToggledSections(ToggledSections(sections, i), i), j) == Expanded(sections, j)
  {
  }

  class LandingPage {
    var currentRole: nat
    var expandedSections: map<nat, bool>

    ghost predicate Valid()
      reads this
    {
      currentRole < |Roles|
    }

    /** `useState(0)` and `useState({})`. */
    constructor ()
      ensures Valid()
      ensures currentRole == 0 && expandedSections == map[]
    {
      currentRole := 0;
      expandedSections := map[];
    }

    /** The `setInterval` callback, run every 4 seconds. */
    method Tick()
      requires Valid()
      modifies this`currentRole
      ensures Valid()
      ensures currentRole == NextRole(old(currentRole))
    {
      currentRole := (currentRole + 1) % |Roles|;
    }

    /** `toggleSection(categoryIndex)`. */
    method ToggleSection(categoryIndex: nat)
      modifies this`expandedSections
      ensures expandedSections == ToggledSections(old(expandedSections), categoryIndex)
    {
      expandedSections := expandedSections[categoryIndex := !(categoryIndex in expandedSections && expandedSections[categoryIndex])];
    }
  }
}
