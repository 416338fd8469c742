/**
 * The settings screen of app/routes/app._index.tsx: the loader gets or creates the shop's row,
 * the action stores the flag posted by the toggle, and the toggle posts the negated flag.
 */
module AppIndex {
  import opened Outcomes
  import opened Platform
  import opened Settings

  /** Submitted form fields, in order; a name may repeat. */
  type FormData = seq<(string, string)>

  /** `formData.get(name)`: the value of the first field with that name, or `null`. */
  function FormGet(form: FormData, name: string): (v: Option<string>)
    ensures v.None? <==> forall i :: 0 <= i < |form| ==> form[i].0 != name
    ensures v.Some? ==> exists i :: 0 <= i < |form| && form[i] == (name, v.value) &&
                                    forall j :: 0 <= j < i ==> form[j].0 != name
  {
    if form == [] then None
    else if form[0].0 == name then Some(form[0].1)
    else
      var rest := FormGet(form[1..], name);
      assert forall i :: 0 <= i < |form[1..]| ==> form[1..][i] == form[i + 1];
      rest
  }

  /** `formData.get("enabled") === "true"`. */
  function ParseEnabled(form: FormData): (on: bool)
    ensures on <==> exists i :: 0 <= i < |form| && form[i] == ("enabled", "true") &&
                                forall j :: 0 <= j < i ==> form[j].0 != "enabled"
  {
    FormGet(form, "enabled") == Some("true")
  }

  /** The flag is set exactly by a first `enabled` field reading `true`; any other text, or none, clears it. */
  lemma ParseEnabledExact(form: FormData, text: string)
    ensures ParseEnabled([("enabled", text)] + form) <==> text == "true"
    ensures (forall i :: 0 <= i < |form| ==> form[i].0 != "enabled") ==> !ParseEnabled(form)
    ensures !ParseEnabled([("enabled", "TRUE")]) && !ParseEnabled([("enabled", "1")])
  {
  }

  /** `Boolean.prototype.toString`. */
  function BoolText(b: bool): (text: string)
    ensures text == "true" <==> b
    ensures text == "false" <==> !b
  {
    if b then "true" else "false"
  }

  /** The form `handleToggle` submits: `enabled` set to the text of the negated current flag. */
  function ToggleForm(current: bool): (form: FormData)
    ensures |form| == 1 && form[0].0 == "enabled"
    ensures ParseEnabled(form) <==> !current
  {
    [("enabled", BoolText(!current))]
  }

  /** A toggle followed by the action flips the stored flag and changes no other row. */
  lemma ToggleFlipsStoredFlag(t: Table, shop: string)
    requires shop in t
    ensures var u := WithFlag(t, shop, ParseEnabled(ToggleForm(t[shop])));
      u[shop] == !t[shop] && AgreeExcept(t, u, shop) && u.Keys == t.Keys
  {
  }

  /**
   * `loader`: `auth` is what `authenticate.admin` did; `findFailure` and `createFailure` whether
   * the lookup and the create threw. Errors are not caught. On success the shop has a row, an
   * existing row is returned unchanged and an absent one is created with the default flag.
   */
  method Loader(auth: Outcome<Session>, store: SettingsStore, findFailure: Option<Error>, createFailure: Option<Error>)
    returns (r: Outcome<IntegrationSettings>)
    modifies store
    ensures auth.Thrown? ==> r == Thrown(auth.error) && store.rows == old(store.rows)
    ensures auth.Ok? && findFailure.Some? ==> r == Thrown(findFailure.value) && store.rows == old(store.rows)
    ensures auth.Ok? && findFailure.None? && auth.value.shop in old(store.rows) ==>
      r == Ok(IntegrationSettings(auth.value.shop, old(store.rows)[auth.value.shop])) && store.rows == old(store.rows)
    ensures auth.Ok? && findFailure.None? && auth.value.shop !in old(store.rows) ==>
      if createFailure.Some? then r == Thrown(createFailure.value) && store.rows == old(store.rows)
      else r == Ok(IntegrationSettings(auth.value.shop, DefaultEnabled)) &&
           store.rows == Ensured(old(store.rows), auth.value.shop, DefaultEnabled)
    ensures r.Ok? ==> store.rows == Ensured(old(store.rows), auth.value.shop, DefaultEnabled) &&
                      r.value == IntegrationSettings(auth.value.shop, store.rows[auth.value.shop])
  {
    if auth.Thrown? {
      return Thrown(auth.error);
    }
    var shop := auth.value.shop;
    var found := store.FindUnique(shop, findFailure);
    if found.Thrown? {
      return Thrown(found.error);
    }
    if found.value.Some? {
      return Ok(found.value.value);
    }
    r := store.Create(shop, createFailure);
  }

  /**
   * `action`: stores `formData.get("enabled") === "true"` as the session shop's flag, changing no
   * other row. `update` throws when the shop has no row; nothing is caught. A throwing
   * `request.formData()` ends the action the same way as a failed authentication (its error comes
   * back and the table is unchanged), so `auth` stands for both.
   */
  method Action(auth: Outcome<Session>, form: FormData, store: SettingsStore, updateFailure: Option<Error>)
    returns (r: Outcome<IntegrationSettings>)
    modifies store
    ensures auth.Thrown? ==> r == Thrown(auth.error) && store.rows == old(store.rows)
    ensures auth.Ok? && updateFailure.Some? ==> r == Thrown(updateFailure.value) && store.rows == old(store.rows)
    ensures auth.Ok? && updateFailure.None? && auth.value.shop !in old(store.rows) ==>
      r == Thrown(RecordNotFound) && store.rows == old(store.rows)
    ensures auth.Ok? && updateFailure.None? && auth.value.shop in old(store.rows) ==>
      r == Ok(IntegrationSettings(auth.value.shop, ParseEnabled(form))) &&
      store.rows == WithFlag(old(store.rows), auth.value.shop, ParseEnabled(form))
  {
    if auth.Thrown? {
      return Thrown(auth.error);
    }
    var isEnabled := ParseEnabled(form);
    r := store.Update(auth.value.shop, isEnabled, updateFailure);
  }
}
