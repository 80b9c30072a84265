/**
 * Store settings: the single `storeSettingSchema` record, nested one level
 * deep, the `PUT /store-settings` merge of a request body into it, and the
 * logo update that accepts only URLs under the CDN prefix.
 *
 * The record is a map from schema key to either a text field (`name`,
 * `businessHours`) or a group of text fields (`contact`, `address`,
 * `appearance`, `socialLinks`), so that the route's `for...in` over the
 * request keys can be followed key by key.
 */
module StoreSettings {
  import opened Common

  datatype Field = Text(text: string) | Group(sub: map<string, string>)

  type Settings = map<string, Field>

  const ScalarKeys: set<string> := {"name", "businessHours"}

  const Groups: map<string, set<string>> := map[
    "contact" := {"phone", "email"},
    "address" := {"country", "city", "addressLine"},
    "appearance" := {"logo", "themeColor"},
    "socialLinks" := {"facebook", "line", "instagram"}]

  /** The record has exactly the schema's paths, each of the right shape. */
  predicate Conforms(s: Settings) {
    && s.Keys == ScalarKeys + Groups.Keys
    && (forall k :: k in ScalarKeys && k in s ==> s[k].Text?)
    && (forall k :: k in Groups && k in s ==> s[k].Group? && s[k].sub.Keys == Groups[k])
  }

  /** The `required` validator of `name`: present and non-empty. */
  predicate HasName(s: Settings) {
    "name" in s && s["name"].Text? && s["name"].text != ""
  }

  /** What save accepts: the schema's shape and the required `name`. */
  predicate WellFormed(s: Settings) {
    Conforms(s) && HasName(s)
  }

  /** `new StoreSetting({})`: every schema default. */
  function Defaults(): (s: Settings)
    ensures WellFormed(s)
  {
    map[
      "name" := Text("My Store"),
      "businessHours" := Text("9:00 AM - 9:00 PM"),
      "contact" := Group(map["phone" := "", "email" := ""]),
      "address" := Group(map["country" := "", "city" := "", "addressLine" := ""]),
      "appearance" := Group(map["logo" := "", "themeColor" := "#ffffff"]),
      "socialLinks" := Group(map["facebook" := "", "line" := "", "instagram" := ""])]
  }

  /** The defaults of every schema path. */
  lemma DefaultValues()
    ensures Defaults()["name"] == Text("My Store")
    ensures Defaults()["businessHours"] == Text("9:00 AM - 9:00 PM")
    ensures Defaults()["appearance"].sub == map["logo" := "", "themeColor" := "#ffffff"]
    ensures forall k, sk :: k in {"contact", "address", "socialLinks"} && sk in Defaults()[k].sub ==> Defaults()[k].sub[sk] == ""
  {
  }

  /**
   * One value of the request body: `null`/`undefined`, a string, or an
   * object whose sub-values are strings or nullish (`None`).
   */
  datatype UpdateValue = Nullish | Scalar(text: string) | Object(fields: map<string, Option<string>>)

  type Update = map<string, UpdateValue>

  /** The `??` merge of an object into a group, sub-key by sub-key: a nullish or absent sub-value keeps the old one. */
  function MergeGroup(g: map<string, string>, fields: map<string, Option<string>>): (r: map<string, string>)
    ensures r.Keys == g.Keys
  {
    map sk | sk in g :: if sk in fields && fields[sk].Some? then fields[sk].value else g[sk]
  }

  /**
   * One pass of the `PUT /store-settings` loop on a known key: a string replaces a text field, an
   * object is merged into a group; a nullish value and a shape mismatch
   * leave the field as it was.
   */
  function MergedField(f: Field, v: UpdateValue): (r: Field)
    ensures r.Text? == f.Text?
    ensures r.Group? ==> r.sub.Keys == f.sub.Keys
  {
    match (f, v)
    case (Text(_), Scalar(t)) => Text(t)
    case (Group(g), Object(fields)) => Group(MergeGroup(g, fields))
    case _ => f
  }

  /** The record after the keys in `done` have been merged. */
  function Partial(s: Settings, u: Update, done: set<string>): (r: Settings)
    requires done <= u.Keys
    ensures r.Keys == s.Keys
  {
    map k | k in s :: if k in done then MergedField(s[k], u[k]) else s[k]
  }

  /** Merging one more key changes that key alone. */
  lemma PartialStep(s: Settings, u: Update, done: set<string>, k: string)
    requires done <= u.Keys && k in u && k !in done
    ensures k in s ==> Partial(s, u, done)[k] == s[k]
    ensures Partial(s, u, done + {k}) ==
      if k in s then Partial(s, u, done)[k := MergedField(s[k], u[k])] else Partial(s, u, done)
  {
    var a := Partial(s, u, done + {k});
    var b := if k in s then Partial(s, u, done)[k := MergedField(s[k], u[k])] else Partial(s, u, done);
    assert a.Keys == b.Keys;
    assert forall x :: x in a ==> a[x] == b[x];
  }

  /** The record after the whole update has been merged. */
  function Merged(s: Settings, u: Update): (r: Settings)
    ensures r.Keys == s.Keys
  {
    Partial(s, u, u.Keys)
  }

  /** Merging keeps the record's schema shape. */
  lemma MergedConforms(s: Settings, u: Update)
    requires Conforms(s)
    ensures Conforms(Merged(s, u))
  {
  }

  /**
   * The object merge on a key the record does not have: reading a property of
   * `undefined` throws as soon as the object has one sub-key.
   */
  predicate Throws(s: Settings, k: string, v: UpdateValue) {
    k !in s && v.Object? && |v.fields| > 0
  }

  /** A non-empty string assigned to a group path is a cast error on save. */
  predicate CastFails(f: Field, v: UpdateValue) {
    f.Group? && v.Scalar? && v.text != ""
  }

  datatype SettingsError =
    | NotFound          // 404: no settings record exists
    | InternalError     // 500: the handler threw or save rejected the record; nothing is saved
    | InvalidImageUrl   // 400
  {
    function Status(): int {
      match this
      case NotFound => 404
      case InternalError => 500
      case InvalidImageUrl => 400
    }
  }

  /** What `PUT /store-settings` does to an existing record. */
  function PutResult(s: Settings, u: Update): (r: Result<Settings, SettingsError>)
    ensures r.Failure? ==> r.error == InternalError
    ensures r.Success? ==> r.value == Merged(s, u) && HasName(r.value)
    ensures r.Success? <==>
      && (forall k :: k in u ==> !Throws(s, k, u[k]))
      && (forall k :: k in u && k in s ==> !CastFails(s[k], u[k]))
      && HasName(Merged(s, u))
  {
    if exists k :: k in u && Throws(s, k, u[k]) then Failure(InternalError)
    else if exists k :: k in u && k in s && CastFails(s[k], u[k]) then Failure(InternalError)
    else if !HasName(Merged(s, u)) then Failure(InternalError)
    else Success(Merged(s, u))
  }

  /**
   * `PUT /store-settings` on a loaded record: the `for...in` over the request keys
   * writes each key into a working copy, then save validates it.
   */
  method ApplyUpdate(s: Settings, u: Update) returns (r: Result<Settings, SettingsError>)
    ensures r == PutResult(s, u)
  {
    var work := s;
    var pending := u.Keys;
    ghost var done: set<string> := {};
    var castFails := false;
    while pending != {}
      invariant pending <= u.Keys && done == u.Keys - pending
      invariant work == Partial(s, u, done)
      invariant forall k :: k in done ==> !Throws(s, k, u[k])
      invariant castFails <==> exists k :: k in done && k in s && CastFails(s[k], u[k])
      decreases pending
    {
      var k :| k in pending;
      if Throws(s, k, u[k]) {
        ThrowRejects(s, u, k);
        return Failure(InternalError);
      }
      PartialStep(s, u, done, k);
      if k in work {
        if CastFails(work[k], u[k]) {
          castFails := true;
        }
        work := work[k := MergedField(work[k], u[k])];
      }
      pending := pending - {k};
      done := done + {k};
    }
    LoopOutcome(s, u, work, castFails);
    if castFails || !HasName(work) {
      return Failure(InternalError);
    }
    r := Success(work);
  }

  /** A key that throws makes the whole update fail. */
  lemma ThrowRejects(s: Settings, u: Update, k: string)
    requires k in u && Throws(s, k, u[k])
    ensures PutResult(s, u) == Failure(InternalError)
  {
  }

  /** Once every key has been merged without a throw, the save decides. */
  lemma LoopOutcome(s: Settings, u: Update, work: Settings, castFails: bool)
    requires work == Partial(s, u, u.Keys)
    requires forall k :: k in u ==> !Throws(s, k, u[k])
    requires castFails <==> exists k :: k in u && k in s && CastFails(s[k], u[k])
    ensures PutResult(s, u) == if castFails || !HasName(work) then Failure(InternalError) else Success(work)
  {
  }

  /** A string sent for `name` or `businessHours` is written, the empty string included (and rejected for `name`). */
  lemma ScalarWritten(s: Settings, u: Update, k: string)
    requires Conforms(s) && k in ScalarKeys && k in u && u[k].Scalar?
    ensures Merged(s, u)[k] == Text(u[k].text)
  {
  }

  /** A nullish value keeps whatever the key held. */
  lemma NullishKeeps(s: Settings, u: Update, k: string)
    requires k in s && k in u && u[k].Nullish?
    ensures Merged(s, u)[k] == s[k]
  {
  }

  /** A group is merged sub-key by sub-key; absent and nullish sub-values keep their old value. */
  lemma GroupMerged(s: Settings, u: Update, k: string, sk: string)
    requires Conforms(s) && k in Groups && k in u && u[k].Object? && sk in Groups[k]
    ensures var f := u[k].fields;
      Merged(s, u)[k].sub[sk] == if sk in f && f[sk].Some? then f[sk].value else s[k].sub[sk]
  {
  }

  /** Keys the request does not mention are unchanged. */
  lemma UntouchedKeysUnchanged(s: Settings, u: Update)
    ensures forall k :: k in s && k !in u ==> Merged(s, u)[k] == s[k]
  {
  }

  lemma MergeGroupIdempotent(g: map<string, string>, fields: map<string, Option<string>>)
    ensures MergeGroup(MergeGroup(g, fields), fields) == MergeGroup(g, fields)
  {
    var once := MergeGroup(g, fields);
    var twice := MergeGroup(once, fields);
    assert forall sk :: sk in twice ==> twice[sk] == once[sk];
  }

  /** Applying the same update twice gives what applying it once gave. */
  lemma {:induction false} PutIdempotent(s: Settings, u: Update)
    requires PutResult(s, u).Success?
    ensures PutResult(PutResult(s, u).value, u) == PutResult(s, u)
  {
    var m := Merged(s, u);
    forall k | k in m
      ensures Merged(m, u)[k] == m[k]
    {
      if k in u {
        match (s[k], u[k])
        case (Group(g), Object(fields)) => MergeGroupIdempotent(g, fields);
        case _ =>
      }
    }
    assert Merged(m, u) == m;
    forall k | k in u && k in m
      ensures !CastFails(m[k], u[k])
    {
      assert m[k].Group? == s[k].Group?;
    }
  }

  /** `imageUrl.startsWith(prefix)`. */
  predicate StartsWith(s: string, prefix: string) {
    |prefix| <= |s| && s[..|prefix|] == prefix
  }

  predicate OccursAt(s: string, pat: string, i: int) {
    0 <= i && i + |pat| <= |s| && s[i..i + |pat|] == pat
  }

  /** `String.prototype.indexOf(pat)` from position `from`. */
  function IndexOfFrom(s: string, pat: string, from: nat): (i: int)
    requires from <= |s|
    ensures i == -1 || (from <= i && OccursAt(s, pat, i))
    ensures i != -1 ==> forall j :: from <= j < i ==> !OccursAt(s, pat, j)
    ensures i == -1 ==> forall j :: from <= j ==> !OccursAt(s, pat, j)
    decreases |s| - from
  {
    if from + |pat| > |s| then -1
    else if s[from..from + |pat|] == pat then from
    else IndexOfFrom(s, pat, from + 1)
  }

  /** `s.replace(pat, '')` with a string pattern: the first occurrence removed. */
  function RemoveFirst(s: string, pat: string): (r: string)
    ensures (forall j :: !OccursAt(s, pat, j)) ==> r == s
    ensures forall j :: OccursAt(s, pat, j) && (forall k :: 0 <= k < j ==> !OccursAt(s, pat, k)) ==>
      r == s[..j] + s[j + |pat|..]
    ensures StartsWith(s, pat) ==> r == s[|pat|..]
  {
    var i := IndexOfFrom(s, pat, 0);
    if i == -1 then s else s[..i] + s[i + |pat|..]
  }

  /** A logo URL the route accepted yields, on replacement, the object key it was built from. */
  lemma LogoKeyRoundTrip(prefix: string, key: string)
    ensures StartsWith(prefix + key, prefix)
    ensures RemoveFirst(prefix + key, prefix) == key
  {
    var s := prefix + key;
    assert OccursAt(s, prefix, 0);
    assert s[..0] + s[|prefix|..] == key;
  }

  /** The outcome of a logo update: the new URL and the object key of the logo it replaced. */
  datatype LogoChange = LogoChange(logo: string, deletedKey: Option<string>)

  /** The single settings document, absent until it is seeded. */
  class SettingsStore {
    var settings: Option<Settings>

    ghost predicate Valid()
      reads this
    {
      settings.Some? ==> WellFormed(settings.value)
    }

    constructor ()
      ensures Valid() && settings.None?
    {
      settings := None;
    }

    /** `GET /store-settings`. */
    method Get() returns (r: Result<Settings, SettingsError>)
      requires Valid()
      ensures settings.None? ==> r == Failure(NotFound)
      ensures settings.Some? ==> r == Success(settings.value) && WellFormed(r.value)
    {
      if settings.None? {
        return Failure(NotFound);
      }
      r := Success(settings.value);
    }

    /** `PUT /store-settings`: merge into the record, then save. */
    method Put(u: Update) returns (r: Result<Settings, SettingsError>)
      requires Valid()
      modifies this
      ensures Valid()
      ensures old(settings).None? ==> r == Failure(NotFound) && settings == old(settings)
      ensures old(settings).Some? ==> r == PutResult(old(settings).value, u)
      ensures old(settings).Some? ==> settings == if r.Success? then Some(r.value) else old(settings)
    {
      if settings.None? {
        return Failure(NotFound);
      }
      r := ApplyUpdate(settings.value, u);
      if r.Success? {
        MergedConforms(settings.value, u);
        settings := Some(r.value);
      }
    }

    /**
     * `PUT /store-settings/logo`: `cdnPrefix` is the CDN base URL from the
     * environment. The old logo's key is handed to the object store, whose
     * failures are swallowed.
     */
    method Logo(imageUrl: Option<string>, cdnPrefix: string) returns (r: Result<LogoChange, SettingsError>)
      requires Valid()
      modifies this
      ensures Valid()
      ensures !(imageUrl.Some? && imageUrl.value != "" && StartsWith(imageUrl.value, cdnPrefix)) ==>
        r == Failure(InvalidImageUrl) && settings == old(settings)
      ensures imageUrl.Some? && imageUrl.value != "" && StartsWith(imageUrl.value, cdnPrefix) ==>
        if old(settings).None? then r == Failure(NotFound) && settings == old(settings)
        else
          var s := old(settings).value;
          var oldLogo := s["appearance"].sub["logo"];
          && r == Success(LogoChange(imageUrl.value, if oldLogo != "" then Some(RemoveFirst(oldLogo, cdnPrefix)) else None))
          && settings == Some(s["appearance" := Group(s["appearance"].sub["logo" := imageUrl.value])])
    {
      if imageUrl.None? || imageUrl.value == "" || !StartsWith(imageUrl.value, cdnPrefix) {
        return Failure(InvalidImageUrl);
      }
      if settings.None? {
        return Failure(NotFound);
      }
      var s := settings.value;
      var oldLogo := s["appearance"].sub["logo"];
      var deletedKey := if oldLogo != "" then Some(RemoveFirst(oldLogo, cdnPrefix)) else None;
      settings := Some(s["appearance" := Group(s["appearance"].sub["logo" := imageUrl.value])]);
      r := Success(LogoChange(imageUrl.value, deletedKey));
    }
  }
}
