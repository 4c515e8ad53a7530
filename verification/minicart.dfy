/** The mini-cart drawer of `useMiniCartStore`: closed, mini or expanded. */
module MiniCart {

  datatype DrawerState = Closed | Mini | Expanded

  const Initial: DrawerState := Closed

  predicate IsOpen(s: DrawerState) { s != Closed }

  predicate IsMini(s: DrawerState) { s == Mini }

  predicate IsExpanded(s: DrawerState) { s == Expanded }

  /** `openMini`: from any state, the drawer is open and mini. */
  function OpenMini(s: DrawerState): (r: DrawerState)
    ensures IsOpen(r) && IsMini(r) && !IsExpanded(r)
  {
    Mini
  }

  /** `openExpanded`: from any state, the drawer is open and expanded. */
  function OpenExpanded(s: DrawerState): (r: DrawerState)
    ensures IsOpen(r) && IsExpanded(r) && !IsMini(r)
  {
    Expanded
  }

  /** `expand`: only the mini drawer grows; closed and expanded stay as they are. */
  function Expand(s: DrawerState): (r: DrawerState)
    ensures IsOpen(r) <==> IsOpen(s)
    ensures IsExpanded(r) <==> IsOpen(s)
    ensures !IsMini(r)
  {
    if s == Mini then Expanded else s
  }

  /** `close`: from any state, none of the getters holds. */
  function Close(s: DrawerState): (r: DrawerState)
    ensures !IsOpen(r) && !IsMini(r) && !IsExpanded(r)
  {
    Closed
  }

  /** Exactly one of "closed", "mini" and "expanded" is reported by the getters. */
  lemma GettersPartition(s: DrawerState)
    ensures !IsOpen(s) <==> s == Closed
    ensures IsOpen(s) <==> IsMini(s) || IsExpanded(s)
    ensures !(IsMini(s) && IsExpanded(s))
  {
  }

  /** The drawer starts closed. */
  lemma InitiallyClosed()
    ensures !IsOpen(Initial) && !IsMini(Initial) && !IsExpanded(Initial)
  {
  }

  /** Where each action leads from any state. */
  lemma Transitions(s: DrawerState)
    ensures IsMini(OpenMini(s)) && IsExpanded(OpenExpanded(s))
    ensures !IsOpen(Close(s))
    ensures s == Mini ==> IsExpanded(Expand(s))
    ensures s != Mini ==> Expand(s) == s
  {
  }

  /** `close` and `expand` are idempotent; `expand` never closes an open drawer. */
  lemma Idempotence(s: DrawerState)
    ensures Close(Close(s)) == Close(s)
    ensures Expand(Expand(s)) == Expand(s)
    ensures IsOpen(Expand(s)) <==> IsOpen(s)
  {
  }
}
