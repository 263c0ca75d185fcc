/**
 * The validation of `obs_to_hide` that both partially observable MuJoCo
 * wrappers share (mushroom_rl/environments/gym_mujoco_pomdp/ant_v3.py and
 * half_cheetah_v3.py): a single name is wrapped into a one-element tuple,
 * not every hidable part may be hidden, and only hidable parts may be named.
 */
module ObsHiding {
  import opened PySemantics

  /** The `obs_to_hide` argument: a single string or a collection of names. */
  datatype HideRequest = Single(name: string) | Several(names: seq<string>)

  /** `(obs_to_hide,)` for a string; the collection itself otherwise. */
  function AsNames(h: HideRequest): (names: seq<string>)
    ensures h.Single? ==> names == [h.name]
    ensures h.Several? ==> names == h.names
  {
    match h
    case Single(name) => [name]
    case Several(names) => names
  }

  /** The constraint both assertions of the constructor enforce. */
  predicate HideAllowed(names: seq<string>, hidable: seq<string>)
  {
    && !(forall x :: x in hidable ==> x in names)
    && (forall x :: x in names ==> x in hidable)
  }

  /**
   * The two assertions of the constructor: AssertionError when every hidable
   * part is named, or when some name is not hidable; otherwise the names to
   * hide.
   */
  function ValidateHide(h: HideRequest, hidable: seq<string>): (r: Result<seq<string>>)
    ensures r.Ok? <==> HideAllowed(AsNames(h), hidable)
    ensures r.Ok? ==> r.value == AsNames(h)
    ensures r.Err? ==> r.error == AssertionError
    ensures (forall x :: x in hidable ==> x in AsNames(h)) ==> r.Err?
    ensures (exists x :: x in AsNames(h) && x !in hidable) ==> r.Err?
  {
    var names := AsNames(h);
    if forall x :: x in hidable ==> x in names then Err(AssertionError)
    else if !(forall x :: x in names ==> x in hidable) then Err(AssertionError)
    else Ok(names)
  }

  /** A request that names only hidable parts and leaves one of them out is accepted. */
  lemma AcceptsPartialHide(h: HideRequest, hidable: seq<string>, shown: string)
    requires shown in hidable && shown !in AsNames(h)
    requires forall x :: x in AsNames(h) ==> x in hidable
    ensures ValidateHide(h, hidable) == Ok(AsNames(h))
  {
  }
}
