/** The earning-rule document the admin panel stores and toggles. */
module RuleSchema {

  /** What a rule's condition is measured on. */
  datatype ConditionType = OrderValue | ProductPurchase

  /** An earning rule as the admin panel stores it. */
  datatype Rule = Rule(name: string, conditionType: ConditionType, conditionValue: int,
                       rewardAmount: int, unlockPeriod: int, isActive: bool)
}
