/**
 * The fixed organizations and programs served by the mock APIs, and the
 * index tables built over them (registrar/apps/api/v0/data.py).
 */
module FakeData {

  datatype FakeOrganization = FakeOrganization(
    key: string,
    courseKeyPrefix: string,
    metadataReadable: bool,
    enrollmentsReadable: bool,
    enrollmentsWriteable: bool)

  datatype FakeProgram = FakeProgram(
    key: string,
    managingOrganization: FakeOrganization,
    title: string,
    url: string)

  /** `'https://{}.edx.org/{}'.format(org_key, program_key)`. */
  function MarketingUrl(orgKey: string, programKey: string): (u: string)
    ensures |u| == |"https://"| + |orgKey| + |".edx.org/"| + |programKey|
    ensures u[..|"https://"|] == "https://" && u[|u| - |programKey|..] == programKey
  {
    "https://" + orgKey + ".edx.org/" + programKey
  }

  /** `_program`: a program of `org` whose url is the organization's marketing url for the key. */
  function MakeProgram(org: FakeOrganization, programKey: string, title: string): (p: FakeProgram)
    ensures p.key == programKey && p.managingOrganization == org && p.title == title
    ensures p.url == MarketingUrl(org.key, programKey)
  {
    FakeProgram(programKey, org, title, MarketingUrl(org.key, programKey))
  }

  const FakeOrgs: seq<FakeOrganization> := [
    FakeOrganization("u-perezburgh", "UPZx", false, false, false),
    FakeOrganization("brianchester-college", "BCCx", true, false, false),
    FakeOrganization("donnaview-inst", "DVIx", true, true, false),
    FakeOrganization("holmeshaven-polytech", "HHPx", true, true, true)
  ]

  const FakePrograms: seq<FakeProgram> := [
    MakeProgram(FakeOrgs[0], "upz-masters-ancient-history", "Master's in Ancient History"),
    MakeProgram(FakeOrgs[1], "bcc-masters-english-lit", "Master's in English Literature"),
    MakeProgram(FakeOrgs[2], "dvi-masters-polysci", "Master's in Political Science"),
    MakeProgram(FakeOrgs[2], "dvi-mba", "Master of Business Administration"),
    MakeProgram(FakeOrgs[3], "hhp-masters-ce", "Master's in Computer Engineering"),
    MakeProgram(FakeOrgs[3], "hhp-masters-theo-physics", "Master's in Theoretical Physics"),
    MakeProgram(FakeOrgs[3], "hhp-masters-enviro", "Master's in Environmental Science")
  ]

  /**
   * A dict comprehension `{key(x): x for x in s}`: later elements overwrite
   * earlier ones with the same key.
   */
  function IndexByKey<T>(s: seq<T>, key: T -> string): map<string, T>
    decreases |s|
  {
    if s == [] then map[]
    else IndexByKey(s[..|s| - 1], key)[key(s[|s| - 1]) := s[|s| - 1]]
  }

  /** The index holds exactly the keys of `s`, each mapped to the last element carrying it. */
  lemma {:induction false} IndexByKeyFinds<T>(s: seq<T>, key: T -> string, i: nat)
    requires i < |s|
    requires forall j :: i < j < |s| ==> key(s[j]) != key(s[i])
    ensures key(s[i]) in IndexByKey(s, key) && IndexByKey(s, key)[key(s[i])] == s[i]
  {
    if i < |s| - 1 {
      var init := s[..|s| - 1];
      assert forall j :: 0 <= j < |init| ==> init[j] == s[j];
      IndexByKeyFinds(init, key, i);
    }
  }

  /** Every key of the index is the key of some element. */
  lemma {:induction false} IndexByKeyDomain<T>(s: seq<T>, key: T -> string, k: string)
    ensures k in IndexByKey(s, key) <==> exists i :: 0 <= i < |s| && key(s[i]) == k
  {
    if s != [] {
      var init := s[..|s| - 1];
      IndexByKeyDomain(init, key, k);
      if exists i :: 0 <= i < |init| && key(init[i]) == k {
        var i :| 0 <= i < |init| && key(init[i]) == k;
        assert key(s[i]) == k;
      }
      if exists i :: 0 <= i < |s| && key(s[i]) == k {
        var i :| 0 <= i < |s| && key(s[i]) == k;
        if i < |init| {
          assert key(init[i]) == k;
        }
      }
    }
  }

  function OrgKey(o: FakeOrganization): string { o.key }
  function ProgramKey(p: FakeProgram): string { p.key }

  /** FAKE_ORG_DICT. */
  function FakeOrgDict(): map<string, FakeOrganization>
  {
    IndexByKey(FakeOrgs, OrgKey)
  }

  /** FAKE_PROGRAM_DICT. */
  function FakeProgramDict(): map<string, FakeProgram>
  {
    IndexByKey(FakePrograms, ProgramKey)
  }

  /** `[program for program in programs if program.managing_organization.key == orgKey]`. */
  function ProgramsOf(programs: seq<FakeProgram>, orgKey: string): seq<FakeProgram>
  {
    if programs == [] then []
    else
      var rest := ProgramsOf(programs[1..], orgKey);
      if programs[0].managingOrganization.key == orgKey then [programs[0]] + rest else rest
  }

  /** The filter keeps exactly the programs of the organization. */
  lemma {:induction false} ProgramsOfMembers(programs: seq<FakeProgram>, orgKey: string)
    ensures forall p :: p in ProgramsOf(programs, orgKey) <==> p in programs && p.managingOrganization.key == orgKey
  {
    if programs != [] {
      ProgramsOfMembers(programs[1..], orgKey);
      assert programs == [programs[0]] + programs[1..];
    }
  }

  /** FAKE_ORG_PROGRAMS. */
  function FakeOrgPrograms(): map<string, seq<FakeProgram>>
  {
    map o | o in FakeOrgs :: o.key := ProgramsOf(FakePrograms, o.key)
  }

  /** Pairwise distinct keys. */
  predicate DistinctKeys<T>(s: seq<T>, key: T -> string)
  {
    forall i, j :: 0 <= i < j < |s| ==> key(s[i]) != key(s[j])
  }

  /** FAKE_ORG_DICT maps each organization's key to that organization, and nothing else. */
  lemma FakeOrgDictIndexesOrgs()
    ensures DistinctKeys(FakeOrgs, OrgKey)
    ensures forall i :: 0 <= i < |FakeOrgs| ==>
      FakeOrgs[i].key in FakeOrgDict() && FakeOrgDict()[FakeOrgs[i].key] == FakeOrgs[i]
    ensures forall k :: k in FakeOrgDict() <==> exists i :: 0 <= i < |FakeOrgs| && FakeOrgs[i].key == k
  {
    OrgKeysDistinct();
    forall i | 0 <= i < |FakeOrgs|
      ensures FakeOrgs[i].key in FakeOrgDict() && FakeOrgDict()[FakeOrgs[i].key] == FakeOrgs[i]
    {
      IndexByKeyFinds(FakeOrgs, OrgKey, i);
    }
    forall k ensures k in FakeOrgDict() <==> exists i :: 0 <= i < |FakeOrgs| && FakeOrgs[i].key == k {
      IndexByKeyDomain(FakeOrgs, OrgKey, k);
    }
  }

  /** FAKE_PROGRAM_DICT maps each program's key to that program; program keys are unique. */
  lemma FakeProgramDictIndexesPrograms()
    ensures DistinctKeys(FakePrograms, ProgramKey)
    ensures forall i :: 0 <= i < |FakePrograms| ==>
      FakePrograms[i].key in FakeProgramDict() && FakeProgramDict()[FakePrograms[i].key] == FakePrograms[i]
    ensures forall k :: k in FakeProgramDict() <==> exists i :: 0 <= i < |FakePrograms| && FakePrograms[i].key == k
  {
    ProgramKeysDistinct();
    forall i | 0 <= i < |FakePrograms|
      ensures FakePrograms[i].key in FakeProgramDict() && FakeProgramDict()[FakePrograms[i].key] == FakePrograms[i]
    {
      IndexByKeyFinds(FakePrograms, ProgramKey, i);
    }
    forall k ensures k in FakeProgramDict() <==> exists i :: 0 <= i < |FakePrograms| && FakePrograms[i].key == k {
      IndexByKeyDomain(FakePrograms, ProgramKey, k);
    }
  }

  /**
   * FAKE_ORG_PROGRAMS has an entry for each organization, holding exactly the
   * programs it manages: every program is in its own organization's list and
   * in no other.
   */
  lemma FakeOrgProgramsPartition()
    ensures forall o :: o in FakeOrgs ==> o.key in FakeOrgPrograms()
    ensures forall k :: k in FakeOrgPrograms() ==>
      forall p :: p in FakeOrgPrograms()[k] <==> p in FakePrograms && p.managingOrganization.key == k
  {
    forall k | k in FakeOrgPrograms()
      ensures forall p :: p in FakeOrgPrograms()[k] <==> p in FakePrograms && p.managingOrganization.key == k
    {
      ProgramsOfMembers(FakePrograms, k);
    }
  }

  /** Every fake program's url is the marketing url of its organization and key. */
  lemma FakeProgramUrls()
    ensures forall p :: p in FakePrograms ==> p.url == MarketingUrl(p.managingOrganization.key, p.key)
  {
  }

  lemma OrgKeysDistinct()
    ensures DistinctKeys(FakeOrgs, OrgKey)
  {
    assert FakeOrgs[0].key[0] == 'u' && FakeOrgs[1].key[0] == 'b';
    assert FakeOrgs[2].key[0] == 'd' && FakeOrgs[3].key[0] == 'h';
  }

  lemma ProgramKeysDistinct()
    ensures DistinctKeys(FakePrograms, ProgramKey)
  {
    assert |FakePrograms[0].key| == 27 && |FakePrograms[1].key| == 23 && |FakePrograms[2].key| == 19;
    assert |FakePrograms[3].key| == 7 && |FakePrograms[4].key| == 14 && |FakePrograms[5].key| == 24;
    assert |FakePrograms[6].key| == 18;
  }

  /** The per-organization lists, in the order of FAKE_PROGRAMS. */
  lemma FakeOrgProgramLists()
    ensures FakeOrgPrograms()["u-perezburgh"] == [FakePrograms[0]]
    ensures FakeOrgPrograms()["brianchester-college"] == [FakePrograms[1]]
    ensures FakeOrgPrograms()["donnaview-inst"] == [FakePrograms[2], FakePrograms[3]]
    ensures FakeOrgPrograms()["holmeshaven-polytech"] == [FakePrograms[4], FakePrograms[5], FakePrograms[6]]
  {
    OrgKeysDistinct();
    ProgramsOfFirstOrg();
    ProgramsOfSecondOrg();
    ProgramsOfThirdOrg();
    ProgramsOfFourthOrg();
    assert FakeOrgs[0] in FakeOrgs && FakeOrgs[1] in FakeOrgs && FakeOrgs[2] in FakeOrgs && FakeOrgs[3] in FakeOrgs;
  }

  lemma ProgramsOfFirstOrg()
    ensures ProgramsOf(FakePrograms, "u-perezburgh") == [FakePrograms[0]]
  {
    var u := FakeOrgs[0].key;
    assert ProgramsOf(FakePrograms[6..], u) == [];
    assert ProgramsOf(FakePrograms[5..], u) == [];
    assert ProgramsOf(FakePrograms[4..], u) == [];
    assert ProgramsOf(FakePrograms[3..], u) == [];
    assert ProgramsOf(FakePrograms[2..], u) == [];
    assert ProgramsOf(FakePrograms[1..], u) == [];
    assert FakePrograms[0..] == FakePrograms;
  }

  lemma ProgramsOfSecondOrg()
    ensures ProgramsOf(FakePrograms, "brianchester-college") == [FakePrograms[1]]
  {
    var b := FakeOrgs[1].key;
    assert FakeOrgs[0].key[0] == 'u';
    assert ProgramsOf(FakePrograms[6..], b) == [];
    assert ProgramsOf(FakePrograms[5..], b) == [];
    assert ProgramsOf(FakePrograms[4..], b) == [];
    assert ProgramsOf(FakePrograms[3..], b) == [];
    assert ProgramsOf(FakePrograms[2..], b) == [];
    assert ProgramsOf(FakePrograms[1..], b) == [FakePrograms[1]];
    assert FakePrograms[0..] == FakePrograms;
  }

  lemma ProgramsOfThirdOrg()
    ensures ProgramsOf(FakePrograms, "donnaview-inst") == [FakePrograms[2], FakePrograms[3]]
  {
    var d := FakeOrgs[2].key;
    assert FakeOrgs[0].key[0] == 'u' && FakeOrgs[1].key[0] == 'b' && FakeOrgs[3].key[0] == 'h';
    assert ProgramsOf(FakePrograms[6..], d) == [];
    assert ProgramsOf(FakePrograms[5..], d) == [];
    assert ProgramsOf(FakePrograms[4..], d) == [];
    assert ProgramsOf(FakePrograms[3..], d) == [FakePrograms[3]];
    assert ProgramsOf(FakePrograms[2..], d) == [FakePrograms[2], FakePrograms[3]];
    assert ProgramsOf(FakePrograms[1..], d) == [FakePrograms[2], FakePrograms[3]];
    assert FakePrograms[0..] == FakePrograms;
  }

  lemma ProgramsOfFourthOrg()
    ensures ProgramsOf(FakePrograms, "holmeshaven-polytech") == [FakePrograms[4], FakePrograms[5], FakePrograms[6]]
  {
    var h := FakeOrgs[3].key;
    assert FakeOrgs[0].key[0] == 'u' && FakeOrgs[1].key[0] == 'b' && FakeOrgs[2].key[0] == 'd';
    assert ProgramsOf(FakePrograms[6..], h) == [FakePrograms[6]];
    assert ProgramsOf(FakePrograms[5..], h) == [FakePrograms[5], FakePrograms[6]];
    assert ProgramsOf(FakePrograms[4..], h) == [FakePrograms[4], FakePrograms[5], FakePrograms[6]];
    assert ProgramsOf(FakePrograms[3..], h) == [FakePrograms[4], FakePrograms[5], FakePrograms[6]];
    assert ProgramsOf(FakePrograms[2..], h) == [FakePrograms[4], FakePrograms[5], FakePrograms[6]];
    assert ProgramsOf(FakePrograms[1..], h) == [FakePrograms[4], FakePrograms[5], FakePrograms[6]];
    assert FakePrograms[0..] == FakePrograms;
  }

  /** Only holmeshaven-polytech is enrollments-writeable; only u-perezburgh is not metadata-readable. */
  lemma FakeOrgFlags()
    ensures forall o :: o in FakeOrgs ==> (o.enrollmentsWriteable <==> o.key == "holmeshaven-polytech")
    ensures forall o :: o in FakeOrgs ==> (!o.metadataReadable <==> o.key == "u-perezburgh")
  {
    OrgKeysDistinct();
  }
}
