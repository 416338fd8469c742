/**
 * The integration-settings table: one row per shop with its `isEnabled` flag. The pure
 * functions say how each database operation changes the table; `SettingsStore` is the table
 * the routes share and mutate.
 */
module Settings {
  import opened Outcomes

  /** The table keyed by shop domain. */
  type Table = map<string, bool>

  /** A row as the database returns it. */
  datatype IntegrationSettings = IntegrationSettings(shop: string, isEnabled: bool)

  /** The value `isEnabled` takes when a row is created without one: the schema default, assumed `true` (the schema is not part of this model). */
  const DefaultEnabled := true

  /** Thrown by `create` when a row for the shop already exists. */
  const UniqueViolation := Error("PrismaClientKnownRequestError", "P2002: Unique constraint failed on the fields: (`shop`)")

  /** Thrown by `update` when there is no row for the shop. */
  const RecordNotFound := Error("PrismaClientKnownRequestError", "P2025: Record to update not found.")

  /** `settings?.isEnabled`: a row exists and its flag is set. */
  predicate Enabled(t: Table, shop: string): (b: bool)
    ensures !b <==> shop !in t || !t[shop]
  {
    shop in t && t[shop]
  }

  /** `t` and `u` have the same rows for every shop other than `shop`. */
  ghost predicate AgreeExcept(t: Table, u: Table, shop: string)
  {
    forall s :: s != shop ==> (s in t <==> s in u) && (s in t ==> t[s] == u[s])
  }

  /** Insert-if-absent: an absent shop gets a row with `flag`, an existing row is left as it is. */
  function Ensured(t: Table, shop: string, flag: bool): (r: Table)
    ensures shop in r
    ensures shop in t ==> r == t
    ensures shop !in t ==> r[shop] == flag && r.Keys == t.Keys + {shop}
    ensures AgreeExcept(t, r, shop)
  {
    if shop in t then t else t[shop := flag]
  }

  /** `deleteMany({where: {shop}})`: the shop's row, if any, is gone; nothing else changes. */
  function Removed(t: Table, shop: string): (r: Table)
    ensures shop !in r
    ensures r.Keys == t.Keys - {shop}
    ensures AgreeExcept(t, r, shop)
  {
    t - {shop}
  }

  /** `update({where: {shop}, data: {isEnabled: flag}})` on an existing row. */
  function WithFlag(t: Table, shop: string, flag: bool): (r: Table)
    requires shop in t
    ensures r.Keys == t.Keys && r[shop] == flag
    ensures AgreeExcept(t, r, shop)
    ensures Enabled(r, shop) == flag
  {
    t[shop := flag]
  }

  /** Ensuring a row twice is ensuring it once, whatever flag the second call would have used. */
  lemma EnsuredIdempotent(t: Table, shop: string, flag: bool, flag2: bool)
    ensures Ensured(Ensured(t, shop, flag), shop, flag2) == Ensured(t, shop, flag)
  {
  }

  /** Ensuring a row creates at most one row. */
  lemma EnsuredCreatesAtMostOne(t: Table, shop: string, flag: bool)
    ensures |Ensured(t, shop, flag)| <= |t| + 1
  {
    if shop !in t {
      assert Ensured(t, shop, flag).Keys == t.Keys + {shop};
    }
  }

  /** After an uninstall the shop's webhooks are dropped; a later install enables it again. */
  lemma UninstallThenReinstall(t: Table, shop: string)
    ensures !Enabled(Removed(t, shop), shop)
    ensures Enabled(Ensured(Removed(t, shop), shop, true), shop)
    ensures AgreeExcept(t, Ensured(Removed(t, shop), shop, true), shop)
  {
  }

  /** The database table shared by the routes. */
  class SettingsStore {
    var rows: Table

    constructor (rows: Table)
      ensures this.rows == rows
    {
      this.rows := rows;
    }

    /** `findUnique({where: {shop}})`, or the error the database threw. */
    function FindUnique(shop: string, failure: Option<Error>): (r: Outcome<Option<IntegrationSettings>>)
      reads this
      ensures failure.Some? ==> r == Thrown(failure.value)
      ensures failure.None? ==> r.Ok? && (r.value.Some? <==> shop in rows)
      ensures failure.None? && shop in rows ==> r.value == Some(IntegrationSettings(shop, rows[shop]))
    {
      if failure.Some? then Thrown(failure.value)
      else if shop in rows then Ok(Some(IntegrationSettings(shop, rows[shop])))
      else Ok(None)
    }

    /** `create({data: {shop}})`: a new row with the default flag; throws when the row exists. */
    method Create(shop: string, failure: Option<Error>) returns (r: Outcome<IntegrationSettings>)
      modifies this
      ensures failure.Some? ==> r == Thrown(failure.value) && rows == old(rows)
      ensures failure.None? && shop in old(rows) ==> r == Thrown(UniqueViolation) && rows == old(rows)
      ensures failure.None? && shop !in old(rows) ==>
        r == Ok(IntegrationSettings(shop, DefaultEnabled)) && rows == Ensured(old(rows), shop, DefaultEnabled)
    {
      if failure.Some? {
        r := Thrown(failure.value);
      } else if shop in rows {
        r := Thrown(UniqueViolation);
      } else {
        rows := rows[shop := DefaultEnabled];
        r := Ok(IntegrationSettings(shop, DefaultEnabled));
      }
    }

    /** `update({where: {shop}, data: {isEnabled}})`; throws when there is no row. */
    method Update(shop: string, isEnabled: bool, failure: Option<Error>) returns (r: Outcome<IntegrationSettings>)
      modifies this
      ensures failure.Some? ==> r == Thrown(failure.value) && rows == old(rows)
      ensures failure.None? && shop !in old(rows) ==> r == Thrown(RecordNotFound) && rows == old(rows)
      ensures failure.None? && shop in old(rows) ==>
        r == Ok(IntegrationSettings(shop, isEnabled)) && rows == WithFlag(old(rows), shop, isEnabled)
    {
      if failure.Some? {
        r := Thrown(failure.value);
      } else if shop !in rows {
        r := Thrown(RecordNotFound);
      } else {
        rows := rows[shop := isEnabled];
        r := Ok(IntegrationSettings(shop, isEnabled));
      }
    }

    /** `upsert({where: {shop}, create: {shop, isEnabled: true}, update: {}})`. */
    method UpsertEnabled(shop: string, failure: Option<Error>) returns (r: Outcome<IntegrationSettings>)
      modifies this
      ensures failure.Some? ==> r == Thrown(failure.value) && rows == old(rows)
      ensures failure.None? ==> rows == Ensured(old(rows), shop, true) && r == Ok(IntegrationSettings(shop, rows[shop]))
    {
      if failure.Some? {
        r := Thrown(failure.value);
      } else {
        if shop !in rows {
          rows := rows[shop := true];
        }
        r := Ok(IntegrationSettings(shop, rows[shop]));
      }
    }

    /** `deleteMany({where: {shop}})`, answering the number of rows deleted. */
    method DeleteMany(shop: string, failure: Option<Error>) returns (r: Outcome<nat>)
      modifies this
      ensures failure.Some? ==> r == Thrown(failure.value) && rows == old(rows)
      ensures failure.None? ==> rows == Removed(old(rows), shop) && r == Ok(if shop in old(rows) then 1 else 0)
    {
      if failure.Some? {
        r := Thrown(failure.value);
      } else {
        r := Ok(if shop in rows then 1 else 0);
        rows := rows - {shop};
      }
    }
  }
}
