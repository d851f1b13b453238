/**
 * `FlushProgramCacheView.delete` of registrar/apps/api/internal/views.py:
 * the cached discovery details of one program, or of every program, are
 * dropped.  The cache is the program-details cache, keyed by discovery
 * uuid (the key template maps each uuid to its own cache key).  Who may
 * call the view is `ApiAuth.FlushViewAdmitsOnlyStaff`.
 */
module InternalViews {
  import opened Wrappers
  import Discovery
  import opened Json
  import opened ApiAuth
  import opened V1Views

  const HttpNoContent: int := 204

  /** The discovery uuids of the programs. */
  function UuidsOf(programs: seq<ProgramRow>): (uuids: set<string>)
    ensures forall u :: u in uuids <==> exists i :: 0 <= i < |programs| && programs[i].discoveryUuid == u
  {
    set i | 0 <= i < |programs| :: programs[i].discoveryUuid
  }

  /**
   * `delete`: with a program key, that program's entry is dropped (404 when
   * no program has the key); without one, every program's entry is.  Either
   * way the answer is 204 and nothing else in the cache changes.
   */
  method FlushProgramCache(cache: Discovery.ProgramDetailsCache, programs: seq<ProgramRow>, programKey: Option<string>)
    returns (r: Result<int, Denial>)
    modifies cache
    ensures r.Ok? ==> r.value == HttpNoContent
    ensures programKey.Some? && programKey.value != "" ==>
      match FindProgram(programs, programKey.value)
      case None => r == Err(NotFound) && cache.entries == old(cache.entries)
      case Some(p) => r.Ok? && cache.entries == old(cache.entries) - {p.discoveryUuid}
    ensures programKey.None? || programKey.value == "" ==>
      r.Ok? && cache.entries == old(cache.entries) - UuidsOf(programs)
    ensures cache.fetchedUrls == old(cache.fetchedUrls) && cache.exceptionsLogged == old(cache.exceptionsLogged)
  {
    if programKey.Some? && programKey.value != "" {
      var program := FindProgram(programs, programKey.value);
      if program.None? {
        return Err(NotFound);
      }
      cache.ClearCachedProgramDetails([program.value.discoveryUuid]);
      assert (set u | u in [program.value.discoveryUuid]) == {program.value.discoveryUuid};
    } else {
      for i := 0 to |programs|
        invariant cache.entries == old(cache.entries) - UuidsOf(programs[..i])
        invariant cache.fetchedUrls == old(cache.fetchedUrls) && cache.exceptionsLogged == old(cache.exceptionsLogged)
      {
        cache.ClearCachedProgramDetails([programs[i].discoveryUuid]);
        assert (set u | u in [programs[i].discoveryUuid]) == {programs[i].discoveryUuid};
        assert UuidsOf(programs[..i + 1]) == UuidsOf(programs[..i]) + {programs[i].discoveryUuid} by {
          assert forall k :: 0 <= k < i ==> programs[..i + 1][k] == programs[..i][k];
        }
      }
      assert programs[..|programs|] == programs;
    }
    r := Ok(HttpNoContent);
  }

  /**
   * After a flush of everything, no program's details are cached any more,
   * and details cached for a uuid no program has are kept.
   */
  lemma FlushAllLeavesOnlyStrangers(before: map<string, Json>, programs: seq<ProgramRow>, u: string)
    ensures forall i :: 0 <= i < |programs| ==> programs[i].discoveryUuid !in before - UuidsOf(programs)
    ensures u in before && (forall i :: 0 <= i < |programs| ==> programs[i].discoveryUuid != u) ==>
      u in before - UuidsOf(programs) && (before - UuidsOf(programs))[u] == before[u]
  {
  }
}
