/** `POST` of app/api/settings/route.ts: validate the target margin, then save the settings as given. */
module SettingsRoute {
  import opened Wrappers
  import opened Types

  /**
   * The settings object of a request body, as the route sees it. JavaScript's
   * `<` and `>` convert the target to a number first, so the target is held
   * as that number: `Some(x)` for a number, and also for a value that
   * converts to one (a numeric string such as "150", `null` as 0, a boolean
   * as 0 or 1). It is `None` when the target is absent or converts to NaN:
   * both range comparisons are then false, so it passes the check. The cost
   * fields are never read.
   */
  datatype SubmittedSettings = SubmittedSettings(
    targetProfitMargin: Option<real>,
    shippingCostPercentage: real,
    marketplaceFeePercentage: real,
    advertisingCostPercentage: real,
    additionalCosts: real)

  /** The parsed request body: unparsable, or a settings object. */
  datatype SettingsBody = Unparsable | Submitted(settings: SubmittedSettings)

  datatype SettingsResponse = Saved | Rejected(status: int, message: string)

  /** The response, together with the object handed to the store (`None` when the save was never attempted). */
  datatype Outcome = Outcome(response: SettingsResponse, attempted: Option<SubmittedSettings>)

  /** A numeric target lies in [0, 100], both ends included. */
  predicate InRange(x: real) {
    0.0 <= x <= 100.0
  }

  /** The only validation: a numeric target out of range fails it; a missing target does not. */
  predicate PassesCheck(s: SubmittedSettings) {
    s.targetProfitMargin.None? || InRange(s.targetProfitMargin.value)
  }

  /** The well-formed settings a submitted object stands for, when its target is a number. */
  function AsSettings(s: SubmittedSettings): (r: Option<Settings>)
    ensures r.Some? <==> s.targetProfitMargin.Some?
    ensures r.Some? ==> (
      r.value.targetProfitMargin == s.targetProfitMargin.value &&
      r.value.shippingCostPercentage == s.shippingCostPercentage &&
      r.value.marketplaceFeePercentage == s.marketplaceFeePercentage &&
      r.value.advertisingCostPercentage == s.advertisingCostPercentage &&
      r.value.additionalCosts == s.additionalCosts)
  {
    match s.targetProfitMargin
    case None => None
    case Some(t) =>
      Some(Settings(t, s.shippingCostPercentage, s.marketplaceFeePercentage, s.advertisingCostPercentage, s.additionalCosts))
  }

  /**
   * `POST`: a numeric target out of range is rejected with 400 before the
   * store is touched; any other object, whatever its costs and even without
   * a target, is saved unchanged, and a throwing save or an unparsable body
   * gives 500.
   */
  function Post(body: SettingsBody, saveThrows: bool): (o: Outcome)
    ensures body.Unparsable? ==> o == Outcome(Rejected(500, "Falha ao salvar configurações"), None)
    ensures body.Submitted? && !PassesCheck(body.settings) ==>
      o == Outcome(Rejected(400, "Margem de lucro deve estar entre 0 e 100%"), None)
    ensures body.Submitted? && PassesCheck(body.settings) ==> o.attempted == Some(body.settings)
    ensures o.response == Saved <==> body.Submitted? && PassesCheck(body.settings) && !saveThrows
    ensures o.response.Rejected? ==> o.response.status in {400, 500}
  {
    match body
    case Unparsable => Outcome(Rejected(500, "Falha ao salvar configurações"), None)
    case Submitted(s) =>
      if s.targetProfitMargin.Some? && (s.targetProfitMargin.value < 0.0 || s.targetProfitMargin.value > 100.0) then
        Outcome(Rejected(400, "Margem de lucro deve estar entre 0 e 100%"), None)
      else if saveThrows then Outcome(Rejected(500, "Falha ao salvar configurações"), Some(s))
      else Outcome(Saved, Some(s))
  }

  /** Both bounds are accepted, and the cost fields are never checked: negative costs are saved as given. */
  lemma BoundsInclusiveCostsUnchecked(s: SubmittedSettings)
    requires s.targetProfitMargin == Some(0.0) || s.targetProfitMargin == Some(100.0)
    ensures Post(Submitted(s), false).response == Saved
    ensures Post(Submitted(s), false).attempted == Some(s)
  {
  }

  /** A body without a numeric target passes the check and is saved as it is. */
  lemma MissingTargetSaved(s: SubmittedSettings)
    requires s.targetProfitMargin.None?
    ensures Post(Submitted(s), false) == Outcome(Saved, Some(s))
    ensures AsSettings(s).None?
  {
  }

  /** A saved object with a numeric target stands for settings whose target lies in [0, 100]. */
  lemma SavedTargetInRange(body: SettingsBody, saveThrows: bool)
    requires Post(body, saveThrows).response == Saved
    requires body.Submitted? && body.settings.targetProfitMargin.Some?
    ensures AsSettings(body.settings).Some? && InRange(AsSettings(body.settings).value.targetProfitMargin)
  {
  }

  /** A rejected target never depends on the store's behaviour. */
  lemma RejectionIgnoresStore(s: SubmittedSettings)
    requires s.targetProfitMargin.Some? && !InRange(s.targetProfitMargin.value)
    ensures Post(Submitted(s), true) == Post(Submitted(s), false)
    ensures Post(Submitted(s), false).response.status == 400
  {
  }
}
