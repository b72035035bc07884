/** The two thermal commands, each carrying the caller's correlation identifier. */
module ThermalActions {
  import opened VectorCore

  datatype ThermalAction =
    | EnableDetection(correlationID: Uuid)
    | DisableDetection(correlationID: Uuid)
  {
    /** `actionDescription`: the case name. */
    function ActionDescription(): (d: string)
      ensures d == (if EnableDetection? then "enableDetection" else "disableDetection")
    {
      match this
      case EnableDetection(_) => "enableDetection"
      case DisableDetection(_) => "disableDetection"
    }

    /** `correlationID`: the identifier the action was built with. */
    function CorrelationID(): (id: Uuid)
      ensures id == correlationID
      ensures EnableDetection? ==> this == EnableDetection(id)
      ensures DisableDetection? ==> this == DisableDetection(id)
    {
      match this
      case EnableDetection(id) => id
      case DisableDetection(id) => id
    }
  }

  /** The description tells the two variants apart. */
  lemma DescriptionIdentifiesVariant(a: ThermalAction, b: ThermalAction)
    ensures a.ActionDescription() == b.ActionDescription() <==> a.EnableDetection? == b.EnableDetection?
  {
  }

  /** Actions are equal exactly when variant and correlation identifier both agree. */
  lemma EqualityIsVariantAndIdentifier(a: ThermalAction, b: ThermalAction)
    ensures a == b <==> a.EnableDetection? == b.EnableDetection? && a.CorrelationID() == b.CorrelationID()
  {
  }
}
