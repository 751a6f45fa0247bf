/** The capability shapes an ability implementation may satisfy, and the fixed
    order in which switch-on tries them. */
module Capabilities {

  /** An implementation value, described by the capability interfaces it
      satisfies. A value may satisfy both, one or neither. */
  datatype Impl = Impl(activable: bool, runnable: bool)

  /** What switch-on does with an implementation. */
  datatype Shape = Activable | Runnable | Inert

  /** Options stored with an ability; the supervisor itself never reads them. */
  datatype Options = Options(autoStart: bool)

  /** The type-assertion chain of switch-on: Activable is tried first, then
      Runnable; a value that is neither gets no work at all. */
  function Dispatch(impl: Impl): (shape: Shape)
    ensures shape == Activable <==> impl.activable
    ensures shape == Runnable <==> !impl.activable && impl.runnable
    ensures shape == Inert <==> !impl.activable && !impl.runnable
  {
    if impl.activable then Activable
    else if impl.runnable then Runnable
    else Inert
  }
}
