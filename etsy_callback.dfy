/** The page the provider redirects to after authorization: it reads the
    `error`, `code` and `state` query parameters, asks the OAuth function to
    exchange the code, shows a notice and closes its window. */
module EtsyCallback {
  import opened Common

  /** What the page does, in order. */
  datatype Effect =
    | Toast(title: string, description: string, destructive: bool)
    | InvokeCallback(code: string, state: Option<string>)
    | CloseWindow

  const CancelledNotice := Toast("Connection Failed", "Etsy connection was cancelled or failed.", true)
  const NoCodeNotice := Toast("Connection Error", "No authorization code received from Etsy.", true)
  const FailedNotice := Toast("Connection Error", "Failed to complete Etsy connection.", true)

  /** `${data.shop.name}`: None when `data.shop` is missing or null, so that
      reading its name throws. */
  function ShopNameText(entries: seq<(string, Json)>): (r: Option<string>)
    ensures r.None? <==> Field(entries, "shop").None? || Field(entries, "shop") == Some(JNull)
  {
    var shop := Field(entries, "shop");
    if shop.None? || shop.value.JNull? then None
    else if shop.value.JObject? then
      var name := Field(shop.value.entries, "name");
      Some(if name.Some? then JsString(name.value) else "undefined")
    else Some("undefined")
  }

  /** Whether the exchange's answer reports success and names a shop. */
  predicate Connected(data: Json) {
    data.JObject? && Truthy(Field(data.entries, "success")) && ShopNameText(data.entries).Some?
  }

  function CountCloses(effects: seq<Effect>): nat {
    CountWhere(effects, (e: Effect) => e.CloseWindow?)
  }

  predicate Invokes(effects: seq<Effect>) {
    exists k :: 0 <= k < |effects| && effects[k].InvokeCallback?
  }

  predicate ShowsSuccess(effects: seq<Effect>) {
    exists k :: 0 <= k < |effects| && effects[k].Toast? && effects[k].title == "Shop Connected!"
  }

  lemma {:induction false} OneCloseAtEnd(prefix: seq<Effect>)
    requires forall k :: 0 <= k < |prefix| ==> !prefix[k].CloseWindow?
    ensures CountCloses(prefix + [CloseWindow]) == 1
  {
    if prefix == [] {
      assert ([] + [CloseWindow])[1..] == [];
    } else {
      assert (prefix + [CloseWindow])[1..] == prefix[1..] + [CloseWindow];
      OneCloseAtEnd(prefix[1..]);
    }
  }

  /** handleCallback, given the invocation's outcome (Err for an error). */
  method HandleCallback(code: Option<string>, state: Option<string>, error: Option<string>, invoke: Result<Json>)
    returns (effects: seq<Effect>)
    ensures |effects| >= 2 && effects[|effects| - 1] == CloseWindow && CountCloses(effects) == 1
    ensures Present(error) ==> effects == [CancelledNotice, CloseWindow]
    ensures !Present(error) && !Present(code) ==> effects == [NoCodeNotice, CloseWindow]
    ensures Invokes(effects) <==> !Present(error) && Present(code)
    ensures Invokes(effects) ==> effects[0] == InvokeCallback(code.value, state)
    ensures ShowsSuccess(effects) <==> !Present(error) && Present(code) && invoke.Ok? && Connected(invoke.value)
    ensures ShowsSuccess(effects) ==>
              effects == [InvokeCallback(code.value, state),
                          Toast("Shop Connected!", "Successfully connected to " + ShopNameText(invoke.value.entries).value, false),
                          CloseWindow]
    ensures !Present(error) && Present(code) && (invoke.Err? || invoke.value.JNull? ||
              (invoke.value.JObject? && Truthy(Field(invoke.value.entries, "success")) && !Connected(invoke.value))) ==>
              effects == [InvokeCallback(code.value, state), FailedNotice, CloseWindow]
    ensures !Present(error) && Present(code) && invoke.Ok? && !invoke.value.JNull? &&
            !(invoke.value.JObject? && Truthy(Field(invoke.value.entries, "success"))) ==>
              effects == [InvokeCallback(code.value, state), CloseWindow]
  {
    if Present(error) {
      effects := [CancelledNotice, CloseWindow];
      OneCloseAtEnd([CancelledNotice]);
      return;
    }
    if !Present(code) {
      effects := [NoCodeNotice, CloseWindow];
      OneCloseAtEnd([NoCodeNotice]);
      return;
    }
    var call := InvokeCallback(code.value, state);
    var outcome: seq<Effect>;
    match invoke {
      case Err(_) =>
        outcome := [FailedNotice, CloseWindow];
      case Ok(data) =>
        if data.JNull? {
          outcome := [FailedNotice, CloseWindow];
        } else if data.JObject? && Truthy(Field(data.entries, "success")) {
          match ShopNameText(data.entries) {
            case None =>
              outcome := [FailedNotice, CloseWindow];
            case Some(name) =>
              outcome := [Toast("Shop Connected!", "Successfully connected to " + name, false), CloseWindow];
          }
        } else {
          outcome := [CloseWindow];
        }
    }
    effects := [call] + outcome;
    assert effects[1] == outcome[0];
    assert effects == [call] + outcome[..|outcome| - 1] + [CloseWindow];
    OneCloseAtEnd([call] + outcome[..|outcome| - 1]);
  }
}
