/**
 * The `manage_programs` management command, in its two copies
 * (registrar/apps/core/management/commands/manage_programs.py and
 * registrar/apps/enrollments/management/commands/manage_programs.py): a
 * comma-separated list of `<discovery_uuid>[:<program_key>]` items names
 * programs to create or re-key; each program is managed by the first of its
 * authoring organizations the registrar knows.  The two copies differ only
 * in how they read a program from discovery, which is a parameter here.
 *
 * The program table is keyed by discovery uuid, in the canonical form
 * Django's UUIDField reads with `uuid.UUID`; program keys are unique in
 * it, as the database demands.  The command runs in one transaction: on any
 * failure the table is left as it was.
 */
module ManagePrograms {
  import opened Wrappers
  import opened Json
  import opened Text
  import Discovery

  const ItemSeparator: char := ','
  const KeySeparator: char := ':'

  /** One item of the argument: a discovery uuid and, optionally, the program key to use. */
  datatype UuidKey = UuidKey(uuid: string, key: Option<string>)

  datatype ProgramRow = ProgramRow(key: string, managingOrg: string)

  /** Why the command stops: a CommandError it raises, or an error Python or the database raises. */
  datatype Failure =
    | IncorrectlyFormatted(argument: string)
    | NoProgramDetails
    | DiscoveryReadFailed(cause: string)
    | NoAuthoringOrgKeys(programUuid: Json)
    | NoKnownOrganization(orgKeys: seq<Json>)
    | Python(error: PyError)
    | InvalidProgramKey(value: Json)
    | ProgramKeyTaken(key: string)
    | InvalidUuid(text: string)

  /** The text of an item: the uuid, then `:` and the key when there is one. */
  function FormatUuidKey(p: UuidKey): string
  {
    match p.key
    case None => p.uuid
    case Some(k) => p.uuid + [KeySeparator] + k
  }

  /** One item of `parse_uuidkeys`: one ':'-separated part is a bare uuid, two are a uuid and a key. */
  function ParseUuidKey(item: string): (r: Result<UuidKey, Failure>)
    ensures r.Ok? <==> Count(item, KeySeparator) <= 1
    ensures r.Err? ==> r.error == IncorrectlyFormatted(item)
    ensures r.Ok? ==> FormatUuidKey(r.value) == item && KeySeparator !in r.value.uuid
  {
    SplitPieces(item, KeySeparator);
    JoinSplit(item, KeySeparator);
    var parts := Split(item, KeySeparator);
    if |parts| == 1 then Ok(UuidKey(item, None))
    else if |parts| == 2 then
      assert parts[1..] == [parts[1]];
      Ok(UuidKey(parts[0], Some(parts[1])))
    else Err(IncorrectlyFormatted(item))
  }

  /** An item whose parts hold no ':' parses back to itself. */
  lemma FormatThenParse(p: UuidKey)
    requires KeySeparator !in p.uuid && (p.key.Some? ==> KeySeparator !in p.key.value)
    ensures ParseUuidKey(FormatUuidKey(p)) == Ok(p)
  {
    match p.key
    case None =>
      SplitNoSeparator(p.uuid, KeySeparator);
    case Some(k) =>
      assert Join([p.uuid, k], KeySeparator) == p.uuid + [KeySeparator] + k by {
        assert [p.uuid, k][1..] == [k];
      }
      SplitJoin([p.uuid, k], KeySeparator);
  }

  /** `parse_uuidkeys` over the comma-separated items: all of them, or the first item's error. */
  function ParseAll(items: seq<string>): (r: Result<seq<UuidKey>, Failure>)
    ensures r.Ok? ==> |r.value| == |items| && forall i :: 0 <= i < |items| ==> ParseUuidKey(items[i]) == Ok(r.value[i])
    ensures r.Err? ==> exists i :: (0 <= i < |items| && ParseUuidKey(items[i]) == Err(r.error) &&
      forall j :: 0 <= j < i ==> ParseUuidKey(items[j]).Ok?)
  {
    if items == [] then Ok([])
    else
      var n := |items| - 1;
      match ParseAll(items[..n])
      case Err(e) => Err(e)
      case Ok(parsed) =>
        match ParseUuidKey(items[n])
        case Err(e) => Err(e)
        case Ok(p) => Ok(parsed + [p])
  }

  /** `parse_uuidkeys`. */
  method ParseUuidkeys(argument: string) returns (r: Result<seq<UuidKey>, Failure>)
    ensures r == ParseAll(Split(argument, ItemSeparator))
  {
    var items := Split(argument, ItemSeparator);
    var result: seq<UuidKey> := [];
    for i := 0 to |items|
      invariant ParseAll(items[..i]) == Ok(result)
    {
      assert items[..i + 1][..i] == items[..i];
      var p := ParseUuidKey(items[i]);
      if p.Err? {
        RunOfItemsStops(items, i + 1);
        return Err(p.error);
      }
      result := result + [p.value];
    }
    assert items[..|items|] == items;
    r := Ok(result);
  }

  /** Once a prefix of the items fails to parse, the whole list fails with the same error. */
  lemma {:induction false} RunOfItemsStops(items: seq<string>, n: nat)
    requires n <= |items| && ParseAll(items[..n]).Err?
    ensures ParseAll(items) == ParseAll(items[..n])
    decreases |items| - n
  {
    if n < |items| {
      var m := |items| - 1;
      assert items[..m][..n] == items[..n];
      RunOfItemsStops(items[..m], n);
      ParseAllErrorLast(items, items[..m]);
    } else {
      assert items[..n] == items;
    }
  }

  lemma ParseAllErrorLast(items: seq<string>, init: seq<string>)
    requires items != [] && init == items[..|items| - 1] && ParseAll(init).Err?
    ensures ParseAll(items) == ParseAll(init)
  {
  }

  /** The argument text for a list of items. */
  function FormatUuidKeys(pairs: seq<UuidKey>): string
  {
    Join(seq(|pairs|, i requires 0 <= i < |pairs| => FormatUuidKey(pairs[i])), ItemSeparator)
  }

  /** An argument built from items free of ',' and ':' parses back to the same items, in order. */
  lemma ParseFormatted(pairs: seq<UuidKey>)
    requires |pairs| >= 1
    requires forall i :: 0 <= i < |pairs| ==> ItemSeparator !in pairs[i].uuid && KeySeparator !in pairs[i].uuid
    requires forall i :: 0 <= i < |pairs| && pairs[i].key.Some? ==>
      ItemSeparator !in pairs[i].key.value && KeySeparator !in pairs[i].key.value
    ensures ParseAll(Split(FormatUuidKeys(pairs), ItemSeparator)) == Ok(pairs)
  {
    var items := seq(|pairs|, i requires 0 <= i < |pairs| => FormatUuidKey(pairs[i]));
    forall i | 0 <= i < |items| ensures ItemSeparator !in items[i] && ParseUuidKey(items[i]) == Ok(pairs[i]) {
      FormatThenParse(pairs[i]);
    }
    SplitJoin(items, ItemSeparator);
    assert ParseAll(items).Ok?;
    assert ParseAll(items).value == pairs;
  }

  /** t occurs in s at position i. */
  predicate OccursAt(s: string, t: string, i: int)
  {
    0 <= i && i + |t| <= |s| && s[i..i + |t|] == t
  }

  /** `t in s` for strings: t occurs in s. */
  predicate ContainsText(s: string, t: string)
  {
    exists i :: 0 <= i <= |s| && OccursAt(s, t, i)
  }

  /** `'key' in org` for an element of the authoring organizations. */
  function HasKeyField(org: Json): (r: Result<bool, PyError>)
    ensures org.JObject? ==> r == Ok("key" in org.fields)
    ensures r.Err? <==> org.JNull? || org.JBool? || org.JNum?
  {
    match org
    case JObject(fields) => Ok("key" in fields)
    case JStr(s) => Ok(ContainsText(s, "key"))
    case JList(items) => Ok(JStr("key") in items)
    case _ => Err(TypeError)
  }

  /** `org['key']`, once `'key' in org` held. */
  function KeyField(org: Json): (r: Result<Json, PyError>)
    ensures org.JObject? && "key" in org.fields ==> r == Ok(org.fields["key"])
    ensures !org.JObject? ==> r == Err(TypeError)
  {
    match org
    case JObject(fields) => if "key" in fields then Ok(fields["key"]) else Err(KeyError)
    case _ => Err(TypeError)
  }

  /** The loop of `get_authoring_org_keys`: the keys of the organizations that have one, in order. */
  function KeysOf(orgs: seq<Json>): (r: Result<seq<Json>, PyError>)
  {
    if orgs == [] then Ok([])
    else
      var n := |orgs| - 1;
      match KeysOf(orgs[..n])
      case Err(e) => Err(e)
      case Ok(keys) =>
        match HasKeyField(orgs[n])
        case Err(e) => Err(e)
        case Ok(has) =>
          if !has then Ok(keys)
          else
            match KeyField(orgs[n])
            case Err(e) => Err(e)
            case Ok(k) => Ok(keys + [k])
  }

  /**
   * For authoring organizations given as dicts, the keys found are exactly
   * the `key` fields present, and there are none only when no organization
   * has one.
   */
  lemma {:induction false} KeysAreKeyFields(orgs: seq<Json>)
    requires forall i :: 0 <= i < |orgs| ==> orgs[i].JObject?
    ensures KeysOf(orgs).Ok?
    ensures forall k :: k in KeysOf(orgs).value <==>
      exists i :: 0 <= i < |orgs| && "key" in orgs[i].fields && orgs[i].fields["key"] == k
    ensures KeysOf(orgs).value == [] <==> forall i :: 0 <= i < |orgs| ==> "key" !in orgs[i].fields
  {
    if orgs != [] {
      var n := |orgs| - 1;
      KeysAreKeyFields(orgs[..n]);
      assert forall i :: 0 <= i < n ==> orgs[..n][i] == orgs[i];
    }
  }

  /** `get_authoring_org_keys`: the keys, or a CommandError naming the program when there are none. */
  function AuthoringOrgKeys(details: Json): (r: Result<seq<Json>, Failure>)
    ensures r.Ok? ==> r.value != []
  {
    match Get(details, "authoring_organizations", JList([]))
    case Err(e) => Err(Python(e))
    case Ok(orgs) =>
      match Elements(orgs)
      case Err(e) => Err(Python(e))
      case Ok(elements) =>
        match KeysOf(elements)
        case Err(e) => Err(Python(e))
        case Ok(keys) =>
          if keys == [] then Err(NoAuthoringOrgKeys(Get(details, "uuid", JNull).value)) else Ok(keys)
  }

  /**
   * Over strings the loop finds no key: `'key' in s` is a substring test, and
   * where it holds `s['key']` raises TypeError.
   */
  lemma {:induction false} KeysOfStrings(orgs: seq<Json>)
    requires forall i :: 0 <= i < |orgs| ==> orgs[i].JStr?
    ensures KeysOf(orgs) == if exists i :: 0 <= i < |orgs| && ContainsText(orgs[i].s, "key") then Err(TypeError) else Ok([])
  {
    if orgs != [] {
      var n := |orgs| - 1;
      KeysOfStrings(orgs[..n]);
      assert forall i :: 0 <= i < n ==> orgs[..n][i] == orgs[i];
      if exists i :: 0 <= i < n && ContainsText(orgs[i].s, "key") {
        var i :| 0 <= i < n && ContainsText(orgs[i].s, "key");
        assert ContainsText(orgs[..n][i].s, "key");
      }
    }
  }

  /**
   * Authoring organizations given as a dict are iterated by key, so the
   * command fails: with TypeError when some key contains "key", and
   * otherwise because no organization key was found.
   */
  lemma DictOrganizationsRefused(details: Json)
    requires details.JObject? && "authoring_organizations" in details.fields
    requires details.fields["authoring_organizations"].JObject?
    ensures var orgs := details.fields["authoring_organizations"].fields;
      AuthoringOrgKeys(details) ==
        if exists k :: k in orgs && ContainsText(k, "key") then Err(Python(TypeError))
        else Err(NoAuthoringOrgKeys(Get(details, "uuid", JNull).value))
  {
    var orgs := details.fields["authoring_organizations"];
    assert Get(details, "authoring_organizations", JList([])) == Ok(orgs);
    var elements := Elements(orgs).value;
    KeysOfStrings(elements);
    KeyTextAmongKeys(orgs.fields, elements);
  }

  /** Some element of a dict's iteration contains "key" exactly when some key of the dict does. */
  lemma KeyTextAmongKeys(fields: map<string, Json>, elements: seq<Json>)
    requires forall i :: 0 <= i < |elements| ==> elements[i].JStr? && elements[i].s in fields
    requires forall k :: k in fields ==> JStr(k) in elements
    ensures (exists k :: k in fields && ContainsText(k, "key")) <==> (exists i :: 0 <= i < |elements| && ContainsText(elements[i].s, "key"))
  {
    if exists k :: k in fields && ContainsText(k, "key") {
      var k :| k in fields && ContainsText(k, "key");
      var i :| 0 <= i < |elements| && elements[i] == JStr(k);
      assert ContainsText(elements[i].s, "key");
    }
    if exists i :: 0 <= i < |elements| && ContainsText(elements[i].s, "key") {
      var i :| 0 <= i < |elements| && ContainsText(elements[i].s, "key");
      assert elements[i].s in fields;
    }
  }

  /** A list of organization names, rather than dicts, fails the same way. */
  lemma StringOrganizationsRefused(details: Json)
    requires details.JObject? && "authoring_organizations" in details.fields
    requires var orgs := details.fields["authoring_organizations"];
      orgs.JList? && forall i :: 0 <= i < |orgs.items| ==> orgs.items[i].JStr?
    ensures var orgs := details.fields["authoring_organizations"].items;
      AuthoringOrgKeys(details) ==
        if exists i :: 0 <= i < |orgs| && ContainsText(orgs[i].s, "key") then Err(Python(TypeError))
        else Err(NoAuthoringOrgKeys(Get(details, "uuid", JNull).value))
  {
    KeysOfStrings(details.fields["authoring_organizations"].items);
  }

  /** `get_authoring_org_keys`, as the loop the command runs. */
  method GetAuthoringOrgKeys(details: Json) returns (r: Result<seq<Json>, Failure>)
    ensures r == AuthoringOrgKeys(details)
  {
    var orgs := Get(details, "authoring_organizations", JList([]));
    if orgs.Err? {
      return Err(Python(orgs.error));
    }
    var elements := Elements(orgs.value);
    if elements.Err? {
      return Err(Python(elements.error));
    }
    var all := elements.value;
    var keys: seq<Json> := [];
    for i := 0 to |all|
      invariant KeysOf(all[..i]) == Ok(keys)
    {
      assert all[..i + 1][..i] == all[..i];
      var has := HasKeyField(all[i]);
      if has.Err? {
        KeysErrorPersists(all, i + 1);
        return Err(Python(has.error));
      }
      if has.value {
        var k := KeyField(all[i]);
        if k.Err? {
          KeysErrorPersists(all, i + 1);
          return Err(Python(k.error));
        }
        keys := keys + [k.value];
      }
    }
    assert all[..|all|] == all;
    if keys == [] {
      return Err(NoAuthoringOrgKeys(Get(details, "uuid", JNull).value));
    }
    r := Ok(keys);
  }

  /** An error in the first n organizations is the error of the whole loop. */
  lemma {:induction false} KeysErrorPersists(orgs: seq<Json>, n: nat)
    requires n <= |orgs| && KeysOf(orgs[..n]).Err?
    ensures KeysOf(orgs) == KeysOf(orgs[..n])
    decreases |orgs| - n
  {
    if n < |orgs| {
      var m := |orgs| - 1;
      assert orgs[..m][..n] == orgs[..n];
      KeysErrorPersists(orgs[..m], n);
    } else {
      assert orgs[..n] == orgs;
    }
  }

  /** `Organization.objects.get(key=k)` finds an organization: k is a known key. */
  predicate KnownKey(k: Json, orgKeys: set<string>)
  {
    k.JStr? && k.s in orgKeys
  }

  /** `get_org`: the first authoring organization the registrar knows. */
  function FirstKnownOrg(keys: seq<Json>, orgKeys: set<string>): (r: Option<string>)
    ensures r.Some? <==> exists i :: 0 <= i < |keys| && KnownKey(keys[i], orgKeys)
    ensures r.Some? ==> (r.value in orgKeys &&
      exists i :: 0 <= i < |keys| && keys[i] == JStr(r.value) && forall j :: 0 <= j < i ==> !KnownKey(keys[j], orgKeys))
  {
    if keys == [] then None
    else if KnownKey(keys[0], orgKeys) then Some(keys[0].s)
    else
      var r := FirstKnownOrg(keys[1..], orgKeys);
      assert forall i :: 0 < i < |keys| ==> keys[i] == keys[1..][i - 1];
      r
  }

  /** The new key of a program: the key given when it is non-empty, else the discovery marketing slug. */
  function NewProgramKey(details: Json, programKey: Option<string>): (r: Result<string, Failure>)
    ensures programKey.Some? && programKey.value != "" ==> r == Ok(programKey.value)
    ensures (programKey.None? || programKey.value == "") && details.JObject? ==>
      match Get(details, "marketing_slug", JNull).value
      case JStr(slug) => r == Ok(slug)
      case other => r == Err(InvalidProgramKey(other))
  {
    if programKey.Some? && programKey.value != "" then Ok(programKey.value)
    else
      match Get(details, "marketing_slug", JNull)
      case Err(e) => Err(Python(e))
      case Ok(JStr(slug)) => Ok(slug)
      case Ok(other) => Err(InvalidProgramKey(other))
  }

  /** Another program than the one with this uuid already has the key. */
  predicate KeyTakenByOther(programs: map<string, ProgramRow>, key: string, uuid: string)
  {
    exists u :: u in programs && u != uuid && programs[u].key == key
  }

  /** Program keys are unique in the table. */
  predicate UniqueKeys(programs: map<string, ProgramRow>)
  {
    forall u, v :: u in programs && v in programs && u != v ==> programs[u].key != programs[v].key
  }

  /**
   * The `get_or_create` of `create_or_modify_program`, on the program's
   * canonical uuid: an unknown uuid creates a program managed by the
   * organization; a known one keeps its organization and takes the given
   * key only when one is given and differs.  Nothing else changes, and a key
   * another program has is refused.
   */
  function Upsert(programs: map<string, ProgramRow>, org: string, details: Json, uuid: string, programKey: Option<string>)
    : (r: Result<map<string, ProgramRow>, Failure>)
    ensures r.Ok? ==> r.value.Keys == programs.Keys + {uuid}
    ensures r.Ok? ==> forall u :: u in programs && u != uuid ==> r.value[u] == programs[u]
    ensures r.Ok? && uuid in programs ==>
      && r.value[uuid].managingOrg == programs[uuid].managingOrg
      && r.value[uuid].key == (if programKey.Some? && programKey.value != "" then programKey.value else programs[uuid].key)
    ensures r.Ok? && uuid !in programs ==>
      NewProgramKey(details, programKey).Ok? && r.value[uuid] == ProgramRow(NewProgramKey(details, programKey).value, org)
    ensures UniqueKeys(programs) && r.Ok? ==> UniqueKeys(r.value)
  {
    if uuid in programs then
      var program := programs[uuid];
      if programKey.Some? && programKey.value != "" && program.key != programKey.value then
        if KeyTakenByOther(programs, programKey.value, uuid) then Err(ProgramKeyTaken(programKey.value))
        else Ok(programs[uuid := program.(key := programKey.value)])
      else Ok(programs)
    else
      match NewProgramKey(details, programKey)
      case Err(e) => Err(e)
      case Ok(key) =>
        if KeyTakenByOther(programs, key, uuid) then Err(ProgramKeyTaken(key))
        else Ok(programs[uuid := ProgramRow(key, org)])
  }

  /**
   * `create_or_modify_program`: the `discovery_uuid` lookup reads the uuid
   * text as `uuid.UUID` does, so a text it refuses is a ValidationError and
   * every spelling of one uuid finds the same program.  (The key default is
   * evaluated first, but the details are a dict by then, so it cannot fail.)
   */
  function CreateOrModify(programs: map<string, ProgramRow>, org: string, details: Json, item: UuidKey)
    : (r: Result<map<string, ProgramRow>, Failure>)
    ensures Discovery.ParseUuid(item.uuid).None? ==> r == Err(InvalidUuid(item.uuid))
    ensures Discovery.ParseUuid(item.uuid).Some? ==>
      r == Upsert(programs, org, details, Discovery.ParseUuid(item.uuid).value, item.key)
  {
    match Discovery.ParseUuid(item.uuid)
    case None => Err(InvalidUuid(item.uuid))
    case Some(uuid) => Upsert(programs, org, details, uuid, item.key)
  }

  /** Two spellings of one uuid, such as upper and lower case, name the same program. */
  lemma SpellingsAgree(programs: map<string, ProgramRow>, org: string, details: Json, a: UuidKey, b: UuidKey)
    requires Discovery.IsUuidHex(a.uuid) && |b.uuid| == 32
    requires a.key == b.key
    requires forall i :: 0 <= i < 32 ==> Discovery.IsHexDigit(b.uuid[i]) && Discovery.LowerHex(a.uuid[i]) == Discovery.LowerHex(b.uuid[i])
    ensures CreateOrModify(programs, org, details, a) == CreateOrModify(programs, org, details, b)
  {
    SameUuid(a.uuid, b.uuid);
  }

  lemma SameUuid(a: string, b: string)
    requires Discovery.IsUuidHex(a) && |b| == 32
    requires forall i :: 0 <= i < 32 ==> Discovery.IsHexDigit(b[i]) && Discovery.LowerHex(a[i]) == Discovery.LowerHex(b[i])
    ensures Discovery.ParseUuid(a).Some? && Discovery.ParseUuid(a) == Discovery.ParseUuid(b)
  {
    assert Discovery.IsUuidHex(b);
    Discovery.ParsePlainHex(a);
    Discovery.ParsePlainHex(b);
    SameLowerHex(a, b);
  }

  lemma SameLowerHex(a: string, b: string)
    requires Discovery.IsUuidHex(a) && Discovery.IsUuidHex(b)
    requires forall i :: 0 <= i < 32 ==> Discovery.LowerHex(a[i]) == Discovery.LowerHex(b[i])
    ensures Discovery.LowerHexString(a) == Discovery.LowerHexString(b)
  {
    var x, y := Discovery.LowerHexString(a), Discovery.LowerHexString(b);
    assert forall i :: 0 <= i < 32 ==> x[i] == y[i];
  }

  /** One item of `handle`: read the program, find its organization, create or modify it. */
  function Step(programs: map<string, ProgramRow>, orgKeys: set<string>, read: string -> Result<Json, Failure>, item: UuidKey)
    : Result<map<string, ProgramRow>, Failure>
  {
    match read(item.uuid)
    case Err(e) => Err(e)
    case Ok(details) =>
      match AuthoringOrgKeys(details)
      case Err(e) => Err(e)
      case Ok(keys) =>
        match FirstKnownOrg(keys, orgKeys)
        case None => Err(NoKnownOrganization(keys))
        case Some(org) => CreateOrModify(programs, org, details, item)
  }

  /** The items handled in order; the first failure ends the run. */
  function Run(programs: map<string, ProgramRow>, orgKeys: set<string>, read: string -> Result<Json, Failure>, items: seq<UuidKey>)
    : Result<map<string, ProgramRow>, Failure>
  {
    if items == [] then Ok(programs)
    else
      var n := |items| - 1;
      match Run(programs, orgKeys, read, items[..n])
      case Err(e) => Err(e)
      case Ok(after) => Step(after, orgKeys, read, items[n])
  }

  lemma {:induction false} RunErrorPersists(programs: map<string, ProgramRow>, orgKeys: set<string>,
                                            read: string -> Result<Json, Failure>, items: seq<UuidKey>, n: nat)
    requires n <= |items| && Run(programs, orgKeys, read, items[..n]).Err?
    ensures Run(programs, orgKeys, read, items) == Run(programs, orgKeys, read, items[..n])
    decreases |items| - n
  {
    if n < |items| {
      var m := |items| - 1;
      assert items[..m][..n] == items[..n];
      RunErrorPersists(programs, orgKeys, read, items[..m], n);
      RunErrorLast(programs, orgKeys, read, items, items[..m]);
    } else {
      assert items[..n] == items;
    }
  }

  /** A failure among all items but the last is the failure of the run. */
  lemma RunErrorLast(programs: map<string, ProgramRow>, orgKeys: set<string>,
                     read: string -> Result<Json, Failure>, items: seq<UuidKey>, init: seq<UuidKey>)
    requires items != [] && init == items[..|items| - 1] && Run(programs, orgKeys, read, init).Err?
    ensures Run(programs, orgKeys, read, items) == Run(programs, orgKeys, read, init)
  {
  }

  /**
   * A successful run keeps program keys unique, never moves an existing
   * program to another organization, and keeps every program it was not
   * asked about.
   */
  lemma {:induction false} RunKeepsTable(programs: map<string, ProgramRow>, orgKeys: set<string>,
                                         read: string -> Result<Json, Failure>, items: seq<UuidKey>)
    requires Run(programs, orgKeys, read, items).Ok?
    ensures var after := Run(programs, orgKeys, read, items).value;
      && programs.Keys <= after.Keys
      && (forall u :: u in programs ==> after[u].managingOrg == programs[u].managingOrg)
      && (forall u :: u in programs && (forall i :: 0 <= i < |items| ==> Discovery.ParseUuid(items[i].uuid) != Some(u)) ==>
            after[u] == programs[u])
      && (UniqueKeys(programs) ==> UniqueKeys(after))
  {
    if items != [] {
      var n := |items| - 1;
      var mid := Run(programs, orgKeys, read, items[..n]).value;
      RunKeepsTable(programs, orgKeys, read, items[..n]);
      StepKeepsTable(mid, orgKeys, read, items[n]);
      KeepsTableCompose(programs, mid, Run(programs, orgKeys, read, items).value, items[..n], items[n], items);
    }
  }

  /** The table guarantees of a run over `prefix` and of one more step combine into those of the whole run. */
  lemma KeepsTableCompose(programs: map<string, ProgramRow>, mid: map<string, ProgramRow>, after: map<string, ProgramRow>,
                          prefix: seq<UuidKey>, last: UuidKey, items: seq<UuidKey>)
    requires |items| == |prefix| + 1 && prefix == items[..|prefix|] && last == items[|prefix|]
    requires && programs.Keys <= mid.Keys
      && (forall u :: u in programs ==> mid[u].managingOrg == programs[u].managingOrg)
      && (forall u :: u in programs && (forall i :: 0 <= i < |prefix| ==> Discovery.ParseUuid(prefix[i].uuid) != Some(u)) ==>
            mid[u] == programs[u])
      && (UniqueKeys(programs) ==> UniqueKeys(mid))
    requires && mid.Keys <= after.Keys
      && (forall u :: u in mid ==> after[u].managingOrg == mid[u].managingOrg)
      && (forall u :: u in mid && Discovery.ParseUuid(last.uuid) != Some(u) ==> after[u] == mid[u])
      && (UniqueKeys(mid) ==> UniqueKeys(after))
    ensures && programs.Keys <= after.Keys
      && (forall u :: u in programs ==> after[u].managingOrg == programs[u].managingOrg)
      && (forall u :: u in programs && (forall i :: 0 <= i < |items| ==> Discovery.ParseUuid(items[i].uuid) != Some(u)) ==>
            after[u] == programs[u])
      && (UniqueKeys(programs) ==> UniqueKeys(after))
  {
    forall u | u in programs && (forall i :: 0 <= i < |items| ==> Discovery.ParseUuid(items[i].uuid) != Some(u))
      ensures after[u] == programs[u]
    {
      assert forall i :: 0 <= i < |prefix| ==> prefix[i] == items[i];
      assert last == items[|items| - 1];
    }
  }

  /** One step keeps every program, its organization, the programs of other uuids, and unique keys. */
  lemma StepKeepsTable(programs: map<string, ProgramRow>, orgKeys: set<string>,
                       read: string -> Result<Json, Failure>, item: UuidKey)
    requires Step(programs, orgKeys, read, item).Ok?
    ensures var after := Step(programs, orgKeys, read, item).value;
      && programs.Keys <= after.Keys
      && (forall u :: u in programs ==> after[u].managingOrg == programs[u].managingOrg)
      && (forall u :: u in programs && Discovery.ParseUuid(item.uuid) != Some(u) ==> after[u] == programs[u])
      && (UniqueKeys(programs) ==> UniqueKeys(after))
  {
  }

  /** The core copy reads the cached program details and aborts on an empty answer. */
  function CoreRead(discovery: string -> Json): (read: string -> Result<Json, Failure>)
    ensures forall uuid :: read(uuid) == if Truthy(discovery(uuid)) then Ok(discovery(uuid)) else Err(NoProgramDetails)
  {
    uuid => if Truthy(discovery(uuid)) then Ok(discovery(uuid)) else Err(NoProgramDetails)
  }

  /** The enrollments copy reads discovery directly; an HTTP error or a 404 becomes a CommandError. */
  function EnrollmentsRead(fetch: string -> Result<Json, string>): (read: string -> Result<Json, Failure>)
    ensures forall uuid :: fetch(uuid).Err? ==> read(uuid) == Err(DiscoveryReadFailed(fetch(uuid).error))
    ensures forall uuid :: fetch(uuid).Ok? ==> read(uuid) == Ok(fetch(uuid).value)
  {
    uuid => match fetch(uuid) case Ok(details) => Ok(details) case Err(cause) => Err(DiscoveryReadFailed(cause))
  }

  /** The core copy aborts on an empty answer before it looks for organizations. */
  lemma EmptyDetailsAbort(programs: map<string, ProgramRow>, orgKeys: set<string>, discovery: string -> Json, item: UuidKey)
    requires discovery(item.uuid) == JObject(map[])
    ensures Step(programs, orgKeys, CoreRead(discovery), item) == Err(NoProgramDetails)
  {
  }

  /** The enrollments copy goes on with an empty answer and then finds no authoring organization key. */
  lemma EmptyDetailsHaveNoKeys(programs: map<string, ProgramRow>, orgKeys: set<string>,
                               fetch: string -> Result<Json, string>, item: UuidKey)
    requires fetch(item.uuid) == Ok(JObject(map[]))
    ensures Step(programs, orgKeys, EnrollmentsRead(fetch), item) == Err(NoAuthoringOrgKeys(JNull))
  {
    assert KeysOf([]) == Ok([]);
  }

  /** The registrar's program table, and the keys of its organizations, which the command only reads. */
  class Registry {
    var programs: map<string, ProgramRow>
    const orgKeys: set<string>

    constructor (programs: map<string, ProgramRow>, orgKeys: set<string>)
      ensures this.programs == programs && this.orgKeys == orgKeys
    {
      this.programs := programs;
      this.orgKeys := orgKeys;
    }

    /** `get_org`, as the loop the command runs. */
    method GetOrg(keys: seq<Json>) returns (r: Result<string, Failure>)
      ensures r == match FirstKnownOrg(keys, orgKeys) case Some(org) => Ok(org) case None => Err(NoKnownOrganization(keys))
    {
      for i := 0 to |keys|
        invariant FirstKnownOrg(keys, orgKeys) == FirstKnownOrg(keys[i..], orgKeys)
      {
        assert keys[i..][1..] == keys[i + 1..];
        if keys[i].JStr? && keys[i].s in orgKeys {
          return Ok(keys[i].s);
        }
      }
      r := Err(NoKnownOrganization(keys));
    }

    /** `create_or_modify_program`. */
    method CreateOrModifyProgram(org: string, details: Json, item: UuidKey) returns (r: Result<(), Failure>)
      modifies this
      ensures match CreateOrModify(old(programs), org, details, item)
        case Ok(after) => r.Ok? && programs == after
        case Err(e) => r == Err(e) && programs == old(programs)
    {
      var parsed := Discovery.ParseUuid(item.uuid);
      if parsed.None? {
        return Err(InvalidUuid(item.uuid));
      }
      r := UpsertProgram(org, details, parsed.value, item.key);
    }

    /** The body of `create_or_modify_program` once the uuid is read. */
    method UpsertProgram(org: string, details: Json, uuid: string, programKey: Option<string>)
      returns (r: Result<(), Failure>)
      modifies this
      ensures match Upsert(old(programs), org, details, uuid, programKey)
        case Ok(after) => r.Ok? && programs == after
        case Err(e) => r == Err(e) && programs == old(programs)
    {
      if uuid in programs {
        var program := programs[uuid];
        if programKey.Some? && programKey.value != "" && program.key != programKey.value {
          if KeyTakenByOther(programs, programKey.value, uuid) {
            return Err(ProgramKeyTaken(programKey.value));
          }
          programs := programs[uuid := program.(key := programKey.value)];
        }
        return Ok(());
      }
      var key := NewProgramKey(details, programKey);
      if key.Err? {
        return Err(key.error);
      }
      if KeyTakenByOther(programs, key.value, uuid) {
        return Err(ProgramKeyTaken(key.value));
      }
      programs := programs[uuid := ProgramRow(key.value, org)];
      r := Ok(());
    }

    /** One pass of the loop of `handle`; a failure changes nothing. */
    method HandleItem(item: UuidKey, read: string -> Result<Json, Failure>) returns (r: Result<(), Failure>)
      modifies this
      ensures match Step(old(programs), orgKeys, read, item)
        case Ok(after) => r.Ok? && programs == after
        case Err(e) => r == Err(e) && programs == old(programs)
    {
      var details := read(item.uuid);
      if details.Err? {
        return Err(details.error);
      }
      var keys := GetAuthoringOrgKeys(details.value);
      if keys.Err? {
        return Err(keys.error);
      }
      var org := GetOrg(keys.value);
      if org.Err? {
        return Err(org.error);
      }
      r := CreateOrModifyProgram(org.value, details.value, item);
    }

    /**
     * The loop of `handle`: every item is handled in order; the first
     * failure ends the command and, the transaction being rolled back,
     * leaves the table as it was.
     */
    method HandleAll(items: seq<UuidKey>, read: string -> Result<Json, Failure>) returns (r: Result<(), Failure>)
      modifies this
      ensures match Run(old(programs), orgKeys, read, items)
        case Ok(after) => r.Ok? && programs == after
        case Err(e) => r == Err(e) && programs == old(programs)
    {
      var snapshot := programs;
      for i := 0 to |items|
        invariant Run(snapshot, orgKeys, read, items[..i]) == Ok(programs)
      {
        ghost var before := programs;
        var done := HandleItem(items[i], read);
        assert items[..i + 1][..i] == items[..i];
        assert Run(snapshot, orgKeys, read, items[..i + 1]) == Step(before, orgKeys, read, items[i]);
        if done.Err? {
          RunErrorPersists(snapshot, orgKeys, read, items, i + 1);
          programs := snapshot;
          return Err(done.error);
        }
      }
      assert items[..|items|] == items;
      r := Ok(());
    }

    /** `handle`: the argument is parsed first; a malformed item changes nothing. */
    method Handle(argument: string, read: string -> Result<Json, Failure>) returns (r: Result<(), Failure>)
      modifies this
      ensures match ParseAll(Split(argument, ItemSeparator))
        case Err(e) => r == Err(e) && programs == old(programs)
        case Ok(items) =>
          match Run(old(programs), orgKeys, read, items)
          case Ok(after) => r.Ok? && programs == after
          case Err(e) => r == Err(e) && programs == old(programs)
    {
      var parsed := ParseUuidkeys(argument);
      if parsed.Err? {
        return Err(parsed.error);
      }
      r := HandleAll(parsed.value, read);
    }

    /** The core copy of `handle`. */
    method HandleCore(argument: string, discovery: string -> Json) returns (r: Result<(), Failure>)
      modifies this
      ensures match ParseAll(Split(argument, ItemSeparator))
        case Err(e) => r == Err(e) && programs == old(programs)
        case Ok(items) =>
          match Run(old(programs), orgKeys, CoreRead(discovery), items)
          case Ok(after) => r.Ok? && programs == after
          case Err(e) => r == Err(e) && programs == old(programs)
    {
      r := Handle(argument, CoreRead(discovery));
    }

    /** The enrollments copy of `handle`. */
    method HandleEnrollments(argument: string, fetch: string -> Result<Json, string>) returns (r: Result<(), Failure>)
      modifies this
      ensures match ParseAll(Split(argument, ItemSeparator))
        case Err(e) => r == Err(e) && programs == old(programs)
        case Ok(items) =>
          match Run(old(programs), orgKeys, EnrollmentsRead(fetch), items)
          case Ok(after) => r.Ok? && programs == after
          case Err(e) => r == Err(e) && programs == old(programs)
    {
      r := Handle(argument, EnrollmentsRead(fetch));
    }
  }
}
