/** `component.DummyComponent` (`cui/component/dummy.go`): the interactive component that
    does nothing, the grid's target when no component is activated by default. */
module Dummies {
  import opened Base

  datatype DummyComponent = DummyComponent
  {
    /** `Update` never fails. */
    function Update(): (err: Option<Error>)
      ensures err.None?
    {
      None
    }

    /** `IsActivated` is always false. */
    function IsActivated(): (yes: bool)
      ensures !yes
    {
      false
    }

    /** `SetActivate` leaves the component as it was: the dummy has no state to change. */
    function SetActivate(yes: bool): DummyComponent
    {
      this
    }

    /** `HandleEvent` ignores every key and never fails. */
    function HandleEvent(key: string): (err: Option<Error>)
      ensures err.None?
    {
      None
    }
  }

  /** Activating the dummy component does not make it activated, and deactivating it
      changes nothing either. */
  lemma ActivationHasNoEffect(d: DummyComponent, yes: bool)
    ensures !d.SetActivate(yes).IsActivated()
    ensures d.SetActivate(yes).SetActivate(!yes) == d
  {
  }
}
