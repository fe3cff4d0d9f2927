/** Allowlists: the plain check on the stored entries (`Lease.AllowsIP`) and the pre-parsed
    one a forward uses for its visitors (`parseCIDRs`, `forward.allows`, the guard in
    handleVisitor). Parsing a CIDR and testing a network for an address are parameters;
    a visitor whose address could not be determined has no IP, and no parsed network
    contains that (net.IPNet.Contains compares lengths first). */
module Allowlist {
  import opened Wrappers

  type IP = seq<bv8>
  type Net = (IP, IP)

  /** net.ParseCIDR and net.IPNet.Contains. */
  datatype Lib = Lib(parse: string -> Option<Net>, contains: (Net, IP) -> bool)

  ghost predicate Admits(lib: Lib, entry: string, ip: Option<IP>) {
    lib.parse(entry).Some? && ip.Some? && lib.contains(lib.parse(entry).value, ip.value)
  }

  /** An open lease admits everybody; a restricted one whoever some well-formed entry admits. */
  ghost predicate Allowed(lib: Lib, entries: seq<string>, ip: Option<IP>) {
    entries == [] || exists i :: 0 <= i < |entries| && Admits(lib, entries[i], ip)
  }

  /** Lease.AllowsIP. */
  method AllowsIP(lib: Lib, entries: seq<string>, ip: Option<IP>) returns (ok: bool)
    ensures ok <==> Allowed(lib, entries, ip)
  {
    if |entries| == 0 {
      return true;
    }
    for i := 0 to |entries|
      invariant forall j :: 0 <= j < i ==> !Admits(lib, entries[j], ip)
    {
      var n := lib.parse(entries[i]);
      if n.Some? && ip.Some? && lib.contains(n.value, ip.value) {
        assert Admits(lib, entries[i], ip);
        return true;
      }
    }
    return false;
  }

  /** Malformed entries are dropped, the order of the others is kept. */
  ghost function Parsed(lib: Lib, entries: seq<string>): seq<Net> {
    if entries == [] then []
    else
      var n := |entries| - 1;
      Parsed(lib, entries[..n]) + (if lib.parse(entries[n]).Some? then [lib.parse(entries[n]).value] else [])
  }

  method ParseCIDRs(lib: Lib, entries: seq<string>) returns (nets: seq<Net>)
    ensures nets == Parsed(lib, entries)
  {
    nets := [];
    for i := 0 to |entries|
      invariant nets == Parsed(lib, entries[..i])
    {
      assert entries[..i + 1][..i] == entries[..i];
      var n := lib.parse(entries[i]);
      if n.Some? {
        nets := nets + [n.value];
      }
    }
    assert entries[..|entries|] == entries;
  }

  /** Every parsed network comes from an entry and every well-formed entry is represented. */
  lemma {:induction false} ParsedAdmits(lib: Lib, entries: seq<string>, ip: IP)
    ensures (exists k :: 0 <= k < |Parsed(lib, entries)| && lib.contains(Parsed(lib, entries)[k], ip)) <==>
            (exists i :: 0 <= i < |entries| && Admits(lib, entries[i], Some(ip)))
  {
    if entries != [] {
      var n := |entries| - 1;
      var before, all := Parsed(lib, entries[..n]), Parsed(lib, entries);
      ParsedAdmits(lib, entries[..n], ip);
      assert forall k :: 0 <= k < |before| ==> all[k] == before[k];
      assert forall i :: 0 <= i < n ==> entries[..n][i] == entries[i];
      if i :| 0 <= i < |entries| && Admits(lib, entries[i], Some(ip)) {
        if i == n {
          assert lib.contains(all[|before|], ip);
        } else {
          assert Admits(lib, entries[..n][i], Some(ip));
          var k :| 0 <= k < |before| && lib.contains(before[k], ip);
          assert lib.contains(all[k], ip);
        }
      }
      if k :| 0 <= k < |all| && lib.contains(all[k], ip) {
        if k < |before| {
          assert lib.contains(before[k], ip);
          var i :| 0 <= i < n && Admits(lib, entries[..n][i], Some(ip));
          assert Admits(lib, entries[i], Some(ip));
        } else {
          assert Admits(lib, entries[n], Some(ip));
        }
      }
    }
  }

  /** The state a forward keeps of its lease's allowlist. */
  datatype Filter = Filter(nets: seq<Net>, restricted: bool)

  method NewFilter(lib: Lib, entries: seq<string>) returns (f: Filter)
    ensures f == Filter(Parsed(lib, entries), entries != [])
  {
    var nets := ParseCIDRs(lib, entries);
    return Filter(nets, |entries| > 0);
  }

  /** forward.allows: fails closed when a restriction parsed to nothing. */
  method Allows(lib: Lib, f: Filter, ip: IP) returns (ok: bool)
    ensures f.nets == [] ==> (ok <==> !f.restricted)
    ensures f.nets != [] ==> (ok <==> exists k :: 0 <= k < |f.nets| && lib.contains(f.nets[k], ip))
  {
    if |f.nets| == 0 {
      return !f.restricted;
    }
    for k := 0 to |f.nets|
      invariant forall j :: 0 <= j < k ==> !lib.contains(f.nets[j], ip)
    {
      if lib.contains(f.nets[k], ip) {
        return true;
      }
    }
    return false;
  }

  /** What handleVisitor decides for a visitor of a forward of this lease is exactly what
      Lease.AllowsIP says, malformed entries and missing addresses included. */
  method VisitorAllowed(lib: Lib, entries: seq<string>, ip: Option<IP>) returns (ok: bool)
    ensures ok <==> Allowed(lib, entries, ip)
  {
    var f := NewFilter(lib, entries);
    if f.restricted || |f.nets| > 0 {
      if ip.None? {
        return false;
      }
      var fits := Allows(lib, f, ip.value);
      ParsedAdmits(lib, entries, ip.value);
      return fits;
    }
    return true;
  }
}
