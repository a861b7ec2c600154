/**
 * The settings page of app/settings/page.tsx: its local state transitions
 * and the worked example it shows for a sale at R$ 100.
 */
module SettingsPage {
  import opened Wrappers
  import opened Numeric
  import opened Types
  import opened MercadoLivreApi
  import FirebaseService

  datatype MessageKind = Success | Failure
  datatype Message = Message(kind: MessageKind, text: string)

  datatype PageState = PageState(settings: Settings, message: Option<Message>)

  /** The field names `updateSetting` accepts. */
  datatype SettingKey = TargetProfitMargin | ShippingCostPercentage | MarketplaceFeePercentage
                      | AdvertisingCostPercentage | AdditionalCosts

  /** The value a key names. */
  function Get(s: Settings, key: SettingKey): real {
    match key
    case TargetProfitMargin => s.targetProfitMargin
    case ShippingCostPercentage => s.shippingCostPercentage
    case MarketplaceFeePercentage => s.marketplaceFeePercentage
    case AdvertisingCostPercentage => s.advertisingCostPercentage
    case AdditionalCosts => s.additionalCosts
  }

  /** The state before the stored settings arrive. */
  function Initial(): (p: PageState)
    ensures p.settings == FirebaseService.DefaultSettings && p.message.None?
  {
    PageState(Settings(30.0, 10.0, 12.0, 5.0, 0.0), None)
  }

  /** `handleReset`: back to the defaults, with the message cleared. */
  function HandleReset(p: PageState): (q: PageState)
    ensures q == Initial()
  {
    PageState(Settings(30.0, 10.0, 12.0, 5.0, 0.0), None)
  }

  /** `updateSetting`: the named field takes the value, every other field keeps its own, and the message is cleared. */
  function UpdateSetting(p: PageState, key: SettingKey, value: real): (q: PageState)
    ensures Get(q.settings, key) == value
    ensures forall k :: k != key ==> Get(q.settings, k) == Get(p.settings, k)
    ensures q.message.None?
  {
    var s := p.settings;
    var t := match key
      case TargetProfitMargin => s.(targetProfitMargin := value)
      case ShippingCostPercentage => s.(shippingCostPercentage := value)
      case MarketplaceFeePercentage => s.(marketplaceFeePercentage := value)
      case AdvertisingCostPercentage => s.(advertisingCostPercentage := value)
      case AdditionalCosts => s.(additionalCosts := value);
    PageState(t, None)
  }

  /** Two settings agreeing on every key are the same settings. */
  lemma SettingsExtensional(a: Settings, b: Settings)
    requires forall k :: Get(a, k) == Get(b, k)
    ensures a == b
  {
    assert Get(a, TargetProfitMargin) == Get(b, TargetProfitMargin);
    assert Get(a, ShippingCostPercentage) == Get(b, ShippingCostPercentage);
    assert Get(a, MarketplaceFeePercentage) == Get(b, MarketplaceFeePercentage);
    assert Get(a, AdvertisingCostPercentage) == Get(b, AdvertisingCostPercentage);
    assert Get(a, AdditionalCosts) == Get(b, AdditionalCosts);
  }

  /** Writing back a field's current value changes only the message. */
  lemma UpdateWithSameValue(p: PageState, key: SettingKey)
    ensures UpdateSetting(p, key, Get(p.settings, key)).settings == p.settings
  {
    SettingsExtensional(UpdateSetting(p, key, Get(p.settings, key)).settings, p.settings);
  }

  /** `fetchSettings`: a successful response replaces the settings; otherwise nothing changes. */
  function FetchSettings(p: PageState, response: Fetch<Settings>): (q: PageState)
    ensures response.Fetched? ==> q == p.(settings := response.data)
    ensures response.Failed? ==> q == p
  {
    match response
    case Fetched(s) => p.(settings := s)
    case Failed => p
  }

  /** `handleSave`: the settings are kept either way; the message reports whether the response was OK. */
  function HandleSave(p: PageState, responseOk: bool): (q: PageState)
    ensures q.settings == p.settings
    ensures q.message.Some? && (q.message.value.kind == Success <==> responseOk)
  {
    if responseOk then PageState(p.settings, Some(Message(Success, "Configurações salvas com sucesso!")))
    else PageState(p.settings, Some(Message(Failure, "Erro ao salvar configurações")))
  }

  /** The worked example's lines for a R$ 100 sale. */
  datatype Preview = Preview(fee: real, shipping: real, advertising: real, fixedCosts: real, net: real, maxCost: Extended)

  function ShowPreview(s: Settings): (v: Preview)
    ensures v.fee == s.marketplaceFeePercentage && v.shipping == s.shippingCostPercentage
    ensures v.advertising == s.advertisingCostPercentage && v.fixedCosts == s.additionalCosts
    ensures v.net == 100.0 - v.fee - v.shipping - v.advertising - v.fixedCosts
  {
    var net := 100.0 - (100.0 * (s.marketplaceFeePercentage + s.shippingCostPercentage + s.advertisingCostPercentage) / 100.0)
               - s.additionalCosts;
    Preview(
      100.0 * s.marketplaceFeePercentage / 100.0,
      100.0 * s.shippingCostPercentage / 100.0,
      100.0 * s.advertisingCostPercentage / 100.0,
      s.additionalCosts,
      net,
      Divide(net, 1.0 + s.targetProfitMargin / 100.0))
  }

  /** The preview is the percentage cost model evaluated at a price of 100, line by line. */
  lemma PreviewMatchesAnalysis(s: Settings)
    ensures var v := ShowPreview(s);
      var b := AtPrice(100.0, s);
      v.fee == b.marketplaceFee && v.shipping == b.shippingCost && v.advertising == b.advertisingCost &&
      v.net == b.netReceived && v.maxCost == b.recommendedCostPrice
  {
    var v := ShowPreview(s);
    var b := AtPrice(100.0, s);
    assert v.fee == b.marketplaceFee && v.shipping == b.shippingCost && v.advertising == b.advertisingCost;
    var pct := s.marketplaceFeePercentage + s.shippingCostPercentage + s.advertisingCostPercentage;
    assert 100.0 * pct / 100.0 == b.shippingCost + b.marketplaceFee + b.advertisingCost;
    assert v.net == b.netReceived;
  }
}
