/**
 * The input controls of a page region. Each control carries a set of CSS
 * classes naming the input groups it belongs to, and has a `disabled` flag.
 */
module Controls {

  /**
   * enableInputs: every control that carries group g gets `disabled` set to
   * `!enabled`; every other control keeps its flag.
   */
  method EnableInputs<G(==)>(disabled: array<bool>, classes: seq<set<G>>, g: G, enabled: bool)
    requires disabled.Length == |classes|
    modifies disabled
    ensures forall i :: 0 <= i < disabled.Length ==>
              disabled[i] == if g in classes[i] then !enabled else old(disabled[i])
  {
    for i := 0 to disabled.Length
      invariant forall k :: 0 <= k < i ==>
                  disabled[k] == if g in classes[k] then !enabled else old(disabled[k])
      invariant forall k :: i <= k < disabled.Length ==> disabled[k] == old(disabled[k])
    {
      if g in classes[i] {
        disabled[i] := !enabled;
      }
    }
  }
}
