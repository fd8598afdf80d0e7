/** The reversible process actions that every layer of the optimizer talks about. */
module ResourceActions {
  datatype ResourceActionType = NoAction | LowerPriority | EnableEcoQos | LowerMemoryPriority
}
