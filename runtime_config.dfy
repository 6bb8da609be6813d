/**
 * The runtime policy of one plugin instance: the rate-limit table pushed to
 * every admitted actor, the rate-limiter switch, and the per-address account
 * cap read by the join check. SetupInstance starts from fixed defaults and
 * overlays the remote configuration when one was obtained.
 */
module RuntimeConfiguration {
  import opened Wrappers
  import opened HostTypes

  datatype RuntimeConfig = RuntimeConfig(
    configuredRateLimits: map<byte, int>,
    ratelimiterBoolean: bool,
    maxAccsPerIp: int)

  /** The deserialised remote configuration; RateLimitList in its enumeration order. */
  datatype RemoteConfig = RemoteConfig(
    rateLimitList: seq<(int, int)>,
    rateLimitUnknownBool: bool,
    maxAccsPerIp: int)

  /** The values SetupInstance installs before consulting the remote configuration. */
  function Defaults(): (c: RuntimeConfig)
    ensures c.configuredRateLimits == map[] && !c.ratelimiterBoolean && c.maxAccsPerIp == 5
  {
    RuntimeConfig(map[], false, 5)
  }

  /** C#'s unchecked `(byte)` cast of an int: the low eight bits. */
  function ToByte(k: int): byte
  {
    (k % 256) as byte
  }

  /** The table after writing the entries of `list`, first to last, into `base`. */
  ghost function ApplyRateLimits(base: map<byte, int>, list: seq<(int, int)>): map<byte, int>
    decreases |list|
  {
    if list == [] then base
    else
      var last := list[|list| - 1];
      ApplyRateLimits(base, list[..|list| - 1])[ToByte(last.0) := last.1]
  }

  /** The configuration SetupInstance leaves behind for a given remote answer. */
  ghost function Merged(remote: Option<RemoteConfig>): RuntimeConfig
  {
    match remote
    case None => Defaults()
    case Some(rc) =>
      RuntimeConfig(ApplyRateLimits(Defaults().configuredRateLimits, rc.rateLimitList),
                    rc.rateLimitUnknownBool, rc.maxAccsPerIp)
  }

  /**
   * The default-then-merge part of SetupInstance: a missing remote
   * configuration keeps the defaults; a present one overrides the switch and
   * the cap and writes each listed limit under its key truncated to a byte.
   */
  method LoadRuntimeConfig(remote: Option<RemoteConfig>) returns (cfg: RuntimeConfig)
    ensures cfg == Merged(remote)
    ensures remote.None? ==> cfg == Defaults()
    ensures remote.Some? ==> cfg.ratelimiterBoolean == remote.value.rateLimitUnknownBool
    ensures remote.Some? ==> cfg.maxAccsPerIp == remote.value.maxAccsPerIp
  {
    cfg := Defaults();
    if remote.Some? {
      var list := remote.value.rateLimitList;
      var limits := cfg.configuredRateLimits;
      var i := 0;
      while i < |list|
        invariant 0 <= i <= |list|
        invariant limits == ApplyRateLimits(Defaults().configuredRateLimits, list[..i])
      {
        assert list[..i + 1][..i] == list[..i];
        limits := limits[ToByte(list[i].0) := list[i].1];
        i := i + 1;
      }
      assert list[..|list|] == list;
      cfg := RuntimeConfig(limits, remote.value.rateLimitUnknownBool, remote.value.maxAccsPerIp);
    }
  }

  /**
   * Every byte key holds the value of the LAST listed entry that truncates to
   * it; keys no entry truncates to keep their base value, and no key appears
   * that neither the base nor some entry supplies.
   */
  lemma {:induction false} RateLimitIsLastWrite(base: map<byte, int>, list: seq<(int, int)>, b: byte)
    ensures b in ApplyRateLimits(base, list) <==>
              b in base || exists i :: 0 <= i < |list| && ToByte(list[i].0) == b
    ensures forall i :: 0 <= i < |list| && ToByte(list[i].0) == b &&
                        (forall j :: i < j < |list| ==> ToByte(list[j].0) != b) ==>
              b in ApplyRateLimits(base, list) && ApplyRateLimits(base, list)[b] == list[i].1
    ensures b in base && (forall i :: 0 <= i < |list| ==> ToByte(list[i].0) != b) ==>
              b in ApplyRateLimits(base, list) && ApplyRateLimits(base, list)[b] == base[b]
    decreases |list|
  {
    if list != [] {
      var n := |list| - 1;
      var front := list[..n];
      RateLimitIsLastWrite(base, front, b);
      assert forall i :: 0 <= i < n ==> front[i] == list[i];
      if ToByte(list[n].0) != b {
        forall i | 0 <= i < |list| && ToByte(list[i].0) == b &&
                   (forall j :: i < j < |list| ==> ToByte(list[j].0) != b)
          ensures ApplyRateLimits(base, list)[b] == list[i].1
        {
          assert i < n && front[i] == list[i];
        }
      }
    }
  }
}
