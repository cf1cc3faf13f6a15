/** Addresses of a compiled topology: when they are all distinct, and when they fit their networks. */
module AddressFacts {
  import opened Text
  import opened Config
  import opened Infra
  import opened Compile
  import opened NameFacts

  // ---------------------------------------------------------------- distinctness

  /** No (network, address) pair occurs twice in the topology. */
  ghost predicate AddressesDistinct(nm: NodeMap) {
    forall n, m, i, j | n in nm && m in nm && 0 <= i < |nm[n].addresses| && 0 <= j < |nm[m].addresses| ::
      nm[n].addresses[i] == nm[m].addresses[j] ==> n == m && i == j
  }

  /** No server shares its host octet with a living client or with the infra pod. */
  predicate OctetsApart(env: Env, c: ClusterInfo) {
    c.servers < 90 && forall j :: 1 <= j <= c.clients && 10 + j <= c.servers ==> Dead(env, c, j)
  }

  lemma JoinInjectiveAfter(net: string, a: string, b: string, c: string, d: string)
    requires net + a + "." + b == net + c + "." + d
    requires Lacks(a, '.') && Lacks(c, '.')
    ensures a == c && b == d
  {
    var l, r := a + ['.'] + b, c + ['.'] + d;
    assert net + a + "." + b == net + l && net + c + "." + d == net + r;
    assert l == (net + l)[|net|..] == (net + r)[|net|..] == r;
    JoinInjective(a, b, c, d, '.');
  }

  lemma BaseInjective(net: string, i: nat, o: nat, j: nat, p: nat)
    requires net + Itoa(i) + "." + Itoa(o) == net + Itoa(j) + "." + Itoa(p)
    ensures i == j && o == p
  {
    hide Itoa;
    JoinInjectiveAfter(net, Itoa(i), Itoa(o), Itoa(j), Itoa(p));
    ItoaInjective(i, j);
    ItoaInjective(o, p);
  }

  /** Two slots with a common address agree on cluster index, host octet and kind of network. */
  lemma CommonAddress(env: Env, s: Slot, t: Slot, i: nat, j: nat)
    requires GoodInfo(s.cluster) && GoodInfo(t.cluster)
    requires i < |SlotAddresses(env, s)| && j < |SlotAddresses(env, t)|
    requires SlotAddresses(env, s)[i] == SlotAddresses(env, t)[j]
    ensures i == j
    ensures s.cluster.index == t.cluster.index && Octet(s.role, s.idx) == Octet(t.role, t.idx)
  {
    NameIsNotReserved(s.cluster.name);
    NameIsNotReserved(t.cluster.name);
    hide Itoa, Octet, OnWan, ClusterNameOk, ClusterIndex;
    assert i == j;
    var net := if i == 0 then "10.0." else "10.1.";
    BaseInjective(net, s.cluster.index, Octet(s.role, s.idx), t.cluster.index, Octet(t.role, t.idx));
  }

  /** In the islands shape, a server outside the primary or a living gateway of the cluster has this host octet on the wan. */
  predicate HasWanOctet(env: Env, c: ClusterInfo, o: nat) {
    || (c.name != PRIMARY_CLUSTER && 11 <= o <= 10 + c.servers)
    || (21 <= o <= 20 + c.clients && IsGateway(c, o - 20) && !Dead(env, c, o - 20))
  }

  /** Two clusters get along with one index: their local networks and their wan octets are apart. */
  ghost predicate MayShareIndex(env: Env, c: ClusterInfo, d: ClusterInfo) {
    env.shape == Islands && forall o: nat :: !(HasWanOctet(env, c, o) && HasWanOctet(env, d, o))
  }

  ghost predicate IndicesApart(env: Env, cs: seq<ClusterInfo>) {
    forall c, d :: c in cs && d in cs && c != d && c.index == d.index ==> MayShareIndex(env, c, d)
  }

  /** The wan octets of the islands shape are those of the slots on the wan. */
  lemma WanOctetOfSlot(env: Env, s: Slot)
    requires env.shape == Islands && s in SlotsOf(env, s.cluster) && OnWan(env, s)
    ensures HasWanOctet(env, s.cluster, Octet(s.role, s.idx))
  {
    hide Dead;
  }

  lemma SlotOfWanOctet(env: Env, c: ClusterInfo, o: nat) returns (s: Slot)
    requires env.shape == Islands && HasWanOctet(env, c, o)
    ensures s in SlotsOf(env, c) && s.cluster == c && OnWan(env, s) && Octet(s.role, s.idx) == o
  {
    hide Dead;
    if c.name != PRIMARY_CLUSTER && 11 <= o <= 10 + c.servers {
      s := Slot(c, ServerRole, o - 10);
      assert s in ServerSlots(c, c.servers);
    } else {
      s := Slot(c, ClientRole, o - 20);
      assert s in ClientSlots(env, c, c.clients);
    }
  }

  /** Slots of different clusters with a common address and index sit on the wan, or share a local network. */
  lemma CommonAddressNetwork(env: Env, s: Slot, t: Slot, i: nat)
    requires ClusterNameOk(s.cluster.name) && ClusterNameOk(t.cluster.name) && s.cluster.name != t.cluster.name
    requires i < |SlotAddresses(env, s)| && i < |SlotAddresses(env, t)|
    requires SlotAddresses(env, s)[i] == SlotAddresses(env, t)[i]
    ensures env.shape == Islands ==> OnWan(env, s) && OnWan(env, t)
  {
    NameIsNotReserved(s.cluster.name);
    NameIsNotReserved(t.cluster.name);
    hide Itoa, Octet, OnWan, ClusterNameOk;
  }

  lemma CommonAddressSameCluster(env: Env, cs: seq<ClusterInfo>, s: Slot, t: Slot, i: nat)
    requires GoodInfos(cs) && DistinctNames(cs) && IndicesApart(env, cs)
    requires s.cluster in cs && t.cluster in cs && s in SlotsOf(env, s.cluster) && t in SlotsOf(env, t.cluster)
    requires i < |SlotAddresses(env, s)| && i < |SlotAddresses(env, t)|
    requires SlotAddresses(env, s)[i] == SlotAddresses(env, t)[i]
    requires s.cluster.index == t.cluster.index && Octet(s.role, s.idx) == Octet(t.role, t.idx)
    ensures s.cluster == t.cluster
  {
    hide SlotAddresses, SlotsOf, GoodInfo, Octet, OnWan, DistinctNames, HasWanOctet, ClusterNameOk;
    GoodNames(cs);
    if s.cluster.name == t.cluster.name {
      MemberByName(cs, s.cluster, t.cluster);
    } else {
      CommonAddressNetwork(env, s, t, i);
      assert MayShareIndex(env, s.cluster, t.cluster);
      WanOctetOfSlot(env, s);
      WanOctetOfSlot(env, t);
      assert false;
    }
  }

  lemma SameOctetSameSlot(env: Env, s: Slot, t: Slot)
    requires GoodInfo(s.cluster) && s.cluster == t.cluster && OctetsApart(env, s.cluster)
    requires s in SlotsOf(env, s.cluster) && t in SlotsOf(env, t.cluster)
    requires Octet(s.role, s.idx) == Octet(t.role, t.idx)
    ensures s == t
  {
    hide Dead;
  }

  lemma CommonAddressSameSlot(env: Env, cs: seq<ClusterInfo>, s: Slot, t: Slot, i: nat, j: nat)
    requires GoodInfos(cs) && DistinctNames(cs) && IndicesApart(env, cs) && s in Slots(env, cs) && t in Slots(env, cs)
    requires forall c :: c in cs ==> OctetsApart(env, c)
    requires i < |SlotAddresses(env, s)| && j < |SlotAddresses(env, t)|
    requires SlotAddresses(env, s)[i] == SlotAddresses(env, t)[j]
    ensures s == t && i == j
  {
    hide SlotAddresses, SlotsOf, Slots, OctetsApart, IndicesApart, DistinctNames, GoodInfo, Octet;
    SlotsMembership(env, cs, s);
    SlotsMembership(env, cs, t);
    CommonAddress(env, s, t, i, j);
    CommonAddressSameCluster(env, cs, s, t, i);
    SameOctetSameSlot(env, s, t);
  }

  lemma OctetsApartSuffices(env: Env, cs: seq<ClusterInfo>, nm: NodeMap)
    requires GoodInfos(cs) && DistinctNames(cs) && IndicesApart(env, cs) && Holds(env, Slots(env, cs), nm)
    requires forall c :: c in cs ==> OctetsApart(env, c)
    ensures AddressesDistinct(nm)
  {
    hide SlotAddresses, Slots, OctetsApart, DistinctNames, IndicesApart, GoodInfos, Holds, SlotName, SlotNode;
    forall n, m, i, j | n in nm && m in nm && 0 <= i < |nm[n].addresses| && 0 <= j < |nm[m].addresses| &&
                        nm[n].addresses[i] == nm[m].addresses[j]
      ensures n == m && i == j
    {
      var s := HoldsAt(env, Slots(env, cs), nm, n);
      var t := HoldsAt(env, Slots(env, cs), nm, m);
      SlotNodeNamed(env, s);
      SlotNodeNamed(env, t);
      CommonAddressSameSlot(env, cs, s, t, i, j);
    }
  }

  /** Two filed slots with the same local or wan address refute distinctness. */
  lemma Collision(env: Env, cs: seq<ClusterInfo>, nm: NodeMap, s: Slot, t: Slot, i: nat)
    requires GoodInfos(cs) && DistinctNames(cs) && Holds(env, Slots(env, cs), nm)
    requires s in Slots(env, cs) && t in Slots(env, cs) && s != t
    requires i < |SlotAddresses(env, s)| && i < |SlotAddresses(env, t)|
    requires SlotAddresses(env, s)[i] == SlotAddresses(env, t)[i]
    ensures !AddressesDistinct(nm)
  {
    hide SlotAddresses, Slots, DistinctNames, GoodInfos, Holds, SlotName, SlotNode;
    SlotIsFiled(env, cs, nm, s);
    SlotIsFiled(env, cs, nm, t);
    SlotNodeNamed(env, s);
    SlotNodeNamed(env, t);
    assert SlotName(s) == SlotName(t) ==> s == t by {
      if SlotName(s) == SlotName(t) {
        SlotNamesInjective(env, cs, s, t);
      }
    }
    assert nm[SlotName(s)].addresses[i] == nm[SlotName(t)].addresses[i];
  }

  lemma OctetsApartNeeded(env: Env, cs: seq<ClusterInfo>, nm: NodeMap, c: ClusterInfo)
    requires GoodInfos(cs) && DistinctNames(cs) && Holds(env, Slots(env, cs), nm)
    requires c in cs && !OctetsApart(env, c)
    ensures !AddressesDistinct(nm)
  {
    var s, t := CollidingSlots(env, c);
    hide Slots, SlotsOf, DistinctNames, GoodInfos, Holds, OctetsApart;
    SlotsMembership(env, cs, s);
    SlotsMembership(env, cs, t);
    SameLanAddress(env, s, t);
    Collision(env, cs, nm, s, t, 0);
  }

  lemma SameLanAddress(env: Env, s: Slot, t: Slot)
    requires s.cluster == t.cluster && Octet(s.role, s.idx) == Octet(t.role, t.idx)
    ensures |SlotAddresses(env, s)| > 0 && |SlotAddresses(env, t)| > 0
    ensures SlotAddresses(env, s)[0] == SlotAddresses(env, t)[0]
  {
  }

  lemma CollidingSlots(env: Env, c: ClusterInfo) returns (s: Slot, t: Slot)
    requires !OctetsApart(env, c)
    ensures s in SlotsOf(env, c) && t in SlotsOf(env, c) && s.cluster == c && t.cluster == c && s != t
    ensures Octet(s.role, s.idx) == Octet(t.role, t.idx)
  {
    hide Dead;
    if c.servers >= 90 {
      s, t := Slot(c, ServerRole, 90), Slot(c, InfraRole, 1);
      assert s in ServerSlots(c, c.servers);
    } else {
      var j :| 1 <= j <= c.clients && 10 + j <= c.servers && !Dead(env, c, j);
      s, t := Slot(c, ServerRole, 10 + j), Slot(c, ClientRole, j);
      assert s in ServerSlots(c, c.servers) && t in ClientSlots(env, c, c.clients);
    }
  }

  /** Two clusters of one index that cannot share it have two nodes with one address. */
  lemma IndicesApartNeeded(env: Env, cs: seq<ClusterInfo>, nm: NodeMap, c: ClusterInfo, d: ClusterInfo)
    requires GoodInfos(cs) && DistinctNames(cs) && Holds(env, Slots(env, cs), nm)
    requires c in cs && d in cs && c != d && c.index == d.index && !MayShareIndex(env, c, d)
    ensures !AddressesDistinct(nm)
  {
    assert GoodInfo(c) && GoodInfo(d);
    hide Slots, SlotsOf, DistinctNames, GoodInfos, GoodInfo, Holds, HasWanOctet, SlotAddresses, AddressesDistinct, Octet;
    var s, t := SharingSlots(env, c, d);
    SlotsMembership(env, cs, s);
    SlotsMembership(env, cs, t);
    SameHostAddress(env, s, t);
    Collision(env, cs, nm, s, t, if env.shape == Flat then 0 else 1);
  }

  lemma SharingSlots(env: Env, c: ClusterInfo, d: ClusterInfo) returns (s: Slot, t: Slot)
    requires c.servers > 0 && d.servers > 0 && !MayShareIndex(env, c, d)
    ensures s in SlotsOf(env, c) && t in SlotsOf(env, d) && s.cluster == c && t.cluster == d
    ensures Octet(s.role, s.idx) == Octet(t.role, t.idx)
    ensures env.shape != Flat ==> OnWan(env, s) && OnWan(env, t)
  {
    hide HasWanOctet;
    if env.shape == Islands {
      var o: nat :| HasWanOctet(env, c, o) && HasWanOctet(env, d, o);
      s := SlotOfWanOctet(env, c, o);
      t := SlotOfWanOctet(env, d, o);
    } else {
      s, t := Slot(c, ServerRole, 1), Slot(d, ServerRole, 1);
      assert s in ServerSlots(c, c.servers) && t in ServerSlots(d, d.servers);
    }
  }

  lemma SameHostAddress(env: Env, s: Slot, t: Slot)
    requires GoodInfo(s.cluster) && GoodInfo(t.cluster) && s.cluster.index == t.cluster.index
    requires Octet(s.role, s.idx) == Octet(t.role, t.idx)
    requires env.shape != Flat ==> OnWan(env, s) && OnWan(env, t)
    ensures var i := if env.shape == Flat then 0 else 1;
            i < |SlotAddresses(env, s)| && i < |SlotAddresses(env, t)| &&
            SlotAddresses(env, s)[i] == SlotAddresses(env, t)[i]
  {
    hide Itoa, ClusterNameOk, ClusterIndex, Octet, OnWan;
  }

  /**
   * With distinct cluster names, all (network, address) pairs are distinct exactly when no server's host octet
   * reaches a living client or the infra pod of its cluster, and clusters of one index may share it.
   */
  lemma AddressesDistinctExactly(cfg: Config, v: View)
    requires Compilable(cfg) && IsCompiled(cfg, v) && DistinctNames(v.clusters)
    ensures AddressesDistinct(v.nm) <==>
            (forall c :: c in v.clusters ==> OctetsApart(EnvOf(cfg), c)) && IndicesApart(EnvOf(cfg), v.clusters)
  {
    CompiledInfosAreGood(cfg, v);
    CompiledHolds(cfg, v);
    var env := EnvOf(cfg);
    hide IsCompiled, Compilable, GoodInfos, DistinctNames, AddressesDistinct, OctetsApart, MayShareIndex, Holds, Slots, EnvOf;
    if c :| c in v.clusters && !OctetsApart(env, c) {
      OctetsApartNeeded(env, v.clusters, v.nm, c);
    } else if c, d :| c in v.clusters && d in v.clusters && c != d && c.index == d.index && !MayShareIndex(env, c, d) {
      IndicesApartNeeded(env, v.clusters, v.nm, c, d);
    } else {
      OctetsApartSuffices(env, v.clusters, v.nm);
    }
  }

  /** Ten servers are always safe; an eleventh takes the address of client 1 unless that one is dead. */
  lemma TenServersAreSafe(env: Env, c: ClusterInfo)
    ensures c.servers <= 10 ==> OctetsApart(env, c)
    ensures c.servers >= 11 && c.clients >= 1 && !Dead(env, c, 1) ==> !OctetsApart(env, c)
  {
    hide Dead;
    assert c.servers >= 11 && c.clients >= 1 && !Dead(env, c, 1) ==> 1 <= 1 <= c.clients && 10 + 1 <= c.servers;
  }

  /**
   * Sharing an index takes the islands shape and the primary, whose gateways must keep clear of the other
   * cluster's servers and gateways; a primary without living gateways always does.
   */
  lemma SharingTakesThePrimary(env: Env, c: ClusterInfo, d: ClusterInfo)
    requires c.servers > 0 && d.servers > 0
    ensures MayShareIndex(env, c, d) ==> env.shape == Islands && (c.name == PRIMARY_CLUSTER || d.name == PRIMARY_CLUSTER)
    ensures (env.shape == Islands && c.name == PRIMARY_CLUSTER && NoLivingGateway(env, c)) ==> MayShareIndex(env, c, d)
  {
    hide Dead;
    assert c.name != PRIMARY_CLUSTER ==> HasWanOctet(env, c, 11);
    assert d.name != PRIMARY_CLUSTER ==> HasWanOctet(env, d, 11);
  }

  predicate NoLivingGateway(env: Env, c: ClusterInfo) {
    forall i :: 1 <= i <= c.clients && IsGateway(c, i) ==> Dead(env, c, i)
  }

  // ---------------------------------------------------------------- networks

  /** A decimal octet, as net.ParseIP reads it: no sign, no leading zero, at most 255. */
  function ParseOctet(s: string): Option<nat> {
    if s != "" && AllDigits(s) && (|s| == 1 || s[0] != '0') && Value(s) <= 255 then Some(Value(s)) else None
  }

  function QuadValue(a: nat, b: nat, c: nat, d: nat): nat { ((a * 256 + b) * 256 + c) * 256 + d }

  /** A dotted quad as a 32-bit number. */
  function ParseIP(s: string): Option<nat> {
    var p := Split(s, '.');
    if |p| != 4 then None
    else
      match (ParseOctet(p[0]), ParseOctet(p[1]), ParseOctet(p[2]), ParseOctet(p[3]))
      case (Some(a), Some(b), Some(c), Some(d)) => Some(QuadValue(a, b, c, d))
      case _ => None
  }

  function HostSpan(prefix: nat): nat
    requires prefix <= 32
    ensures HostSpan(prefix) > 0
    decreases 32 - prefix
  {
    if prefix == 32 then 1 else 2 * HostSpan(prefix + 1)
  }

  /** The address belongs to the block written as base/prefix. */
  predicate InBlock(cidr: string, ip: string) {
    var p := Split(cidr, '/');
    && |p| == 2 && p[1] != "" && AllDigits(p[1]) && Value(p[1]) <= 32
    && ParseIP(p[0]).Some? && ParseIP(ip).Some?
    && ParseIP(ip).value / HostSpan(Value(p[1])) == ParseIP(p[0]).value / HostSpan(Value(p[1]))
  }

  lemma ParseOctetItoa(n: nat)
    ensures ParseOctet(Itoa(n)) == if n <= 255 then Some(n) else None
  {
    ValueOfItoa(n);
    ItoaLength(n);
  }

  lemma ParseQuad(a: nat, b: nat, c: nat, d: nat)
    requires a <= 255 && b <= 255
    ensures ParseIP(Itoa(a) + "." + Itoa(b) + "." + Itoa(c) + "." + Itoa(d))
         == if c <= 255 && d <= 255 then Some(QuadValue(a, b, c, d)) else None
  {
    ParseOctetItoa(a);
    ParseOctetItoa(b);
    ParseOctetItoa(c);
    ParseOctetItoa(d);
    SplitQuad(Itoa(a), Itoa(b), Itoa(c), Itoa(d));
    hide Itoa, ParseOctet, Split, QuadValue;
  }

  lemma SplitQuad(a: string, b: string, c: string, d: string)
    requires AllDigits(a) && AllDigits(b) && AllDigits(c) && AllDigits(d)
    ensures Split(a + "." + b + "." + c + "." + d, '.') == [a, b, c, d]
  {
    hide Split;
    var t2 := c + ['.'] + d;
    var t1 := b + ['.'] + t2;
    assert a + "." + b + "." + c + "." + d == a + ['.'] + t1;
    SplitJoined(a, t1, '.');
    SplitJoined(b, t2, '.');
    SplitJoined(c, d, '.');
    SplitPiece(d, '.');
  }

  function NetPrefix(second: nat): string { if second == 0 then "10.0." else "10.1." }

  lemma NetPrefixIsDotted(second: nat)
    requires second <= 1
    ensures Itoa(10) + "." + Itoa(second) + "." == NetPrefix(second)
  {
    SmallNumerals();
    hide Itoa;
  }

  /** 10.second.index.octet parses exactly when index and octet are at most 255. */
  lemma ParseHost(second: nat, index: nat, octet: nat)
    requires second <= 1
    ensures ParseIP(NetPrefix(second) + Itoa(index) + "." + Itoa(octet))
         == if index <= 255 && octet <= 255
            then Some(QuadValue(10, second, index, octet)) else None
  {
    ParseQuad(10, second, index, octet);
    NetPrefixIsDotted(second);
    hide Itoa, ParseIP, QuadValue, NetPrefix;
  }

  lemma SmallNumerals()
    ensures Itoa(0) == "0" && Itoa(1) == "1" && Itoa(10) == "10"
  {
    assert Itoa(10) == Itoa(1) + "0";
  }

  lemma Spans()
    ensures HostSpan(24) == 256 && HostSpan(16) == 65536
  {
    assert HostSpan(31) == 2 && HostSpan(30) == 4 && HostSpan(29) == 8 && HostSpan(28) == 16;
    assert HostSpan(27) == 32 && HostSpan(26) == 64 && HostSpan(25) == 128 && HostSpan(24) == 256;
    assert HostSpan(23) == 512 && HostSpan(22) == 1024 && HostSpan(21) == 2048 && HostSpan(20) == 4096;
    assert HostSpan(19) == 8192 && HostSpan(18) == 16384 && HostSpan(17) == 32768;
  }

  lemma SplitBlock(base: string, prefix: string)
    requires Lacks(base, '/') && Lacks(prefix, '/')
    ensures Split(base + "/" + prefix, '/') == [base, prefix]
  {
    SplitJoined(base, prefix, '/');
    SplitPiece(prefix, '/');
  }

  lemma PrefixValues()
    ensures Value("24") == 24 && Value("16") == 16
  {
    assert Value("2") == 2 by { assert "2"[..0] == ""; }
    assert Value("1") == 1 by { assert "1"[..0] == ""; }
    assert "24"[..1] == "2" && "16"[..1] == "1";
  }

  lemma BlockNumbers(a: nat, b: nat, c: nat, d: nat)
    requires c <= 255 && d <= 255
    ensures QuadValue(a, b, c, d) / 65536 == a * 256 + b
    ensures QuadValue(a, b, c, d) / 256 == (a * 256 + b) * 256 + c
  {
    var hi := a * 256 + b;
    assert QuadValue(a, b, c, d) == hi * 65536 + (c * 256 + d);
    assert QuadValue(a, b, c, d) == (hi * 256 + c) * 256 + d;
  }

  /** Membership in base/prefix, once both sides of the slash are known. */
  lemma InBlockOf(base: string, prefix: string, ip: string)
    requires Lacks(base, '/') && prefix in {"16", "24"} && ParseIP(base).Some?
    ensures InBlock(base + "/" + prefix, ip) <==>
            ParseIP(ip).Some? &&
            (if prefix == "16" then ParseIP(ip).value / 65536 == ParseIP(base).value / 65536
             else ParseIP(ip).value / 256 == ParseIP(base).value / 256)
  {
    SplitBlock(base, prefix);
    Spans();
    PrefixValues();
    hide Split, ParseIP, HostSpan, Value;
  }

  lemma SharedBlockText(second: nat)
    requires second <= 1
    ensures var base := NetPrefix(second) + Itoa(0) + "." + Itoa(0);
            Lacks(base, '/') && base + "/" + "16" == if second == 0 then "10.0.0.0/16" else "10.1.0.0/16"
  {
    assert Itoa(0) == "0";
    hide Itoa;
    var base := NetPrefix(second) + "0" + "." + "0";
    assert base == if second == 0 then "10.0.0.0" else "10.1.0.0";
  }

  lemma ClusterBlockText(index: nat)
    ensures var base := NetPrefix(0) + Itoa(index) + "." + Itoa(0);
            Lacks(base, '/') && base + "/" + "24" == "10.0." + Itoa(index) + ".0/24"
  {
    assert Itoa(0) == "0";
    hide Itoa;
    var base := NetPrefix(0) + Itoa(index) + "." + "0";
    assert Lacks("10.0.", '/') && Lacks(Itoa(index), '/');
    assert "." + "0" + "/" + "24" == ".0/24";
  }

  /** The /16 blocks of the shared networks: any parsable 10.second address is inside. */
  lemma InSharedBlock(second: nat, ip: string, index: nat, octet: nat)
    requires second <= 1
    requires ip == NetPrefix(second) + Itoa(index) + "." + Itoa(octet)
    ensures InBlock(if second == 0 then "10.0.0.0/16" else "10.1.0.0/16", ip) <==> index <= 255 && octet <= 255
  {
    SharedBlockText(second);
    hide Itoa, ParseIP, InBlock, QuadValue, NetPrefix;
    ParseHost(second, index, octet);
    ParseHost(second, 0, 0);
    BlockNumbers(10, second, 0, 0);
    var base := NetPrefix(second) + Itoa(0) + "." + Itoa(0);
    InBlockOf(base, "16", ip);
    if index <= 255 && octet <= 255 {
      BlockNumbers(10, second, index, octet);
    }
  }

  lemma NotInBlock(cidr: string, ip: string)
    requires ParseIP(ip).None?
    ensures !InBlock(cidr, ip)
  {
  }

  lemma InClusterBase(index: nat, octet: nat)
    ensures InBlock(NetPrefix(0) + Itoa(index) + "." + Itoa(0) + "/" + "24", NetPrefix(0) + Itoa(index) + "." + Itoa(octet))
       <==> index <= 255 && octet <= 255
  {
    ClusterBlockText(index);
    hide Itoa, ParseIP, InBlock, QuadValue, NetPrefix;
    ParseHost(0, index, octet);
    ParseHost(0, index, 0);
    var base, ip := NetPrefix(0) + Itoa(index) + "." + Itoa(0), NetPrefix(0) + Itoa(index) + "." + Itoa(octet);
    if index > 255 || octet > 255 {
      NotInBlock(base + "/" + "24", ip);
    } else {
      InBlockOf(base, "24", ip);
      BlockNumbers(10, 0, index, 0);
      BlockNumbers(10, 0, index, octet);
    }
  }

  /** The /24 block of one cluster's own network. */
  lemma InClusterBlock(index: nat, octet: nat)
    ensures InBlock("10.0." + Itoa(index) + ".0/24", "10.0." + Itoa(index) + "." + Itoa(octet))
       <==> index <= 255 && octet <= 255
  {
    hide Itoa, InBlock;
    ClusterBlockText(index);
    InClusterBase(index, octet);
  }

  /** Every address names a network of the topology and lies inside its block. */
  ghost predicate AllRouted(v: View) {
    forall n, i :: n in v.nm && 0 <= i < |v.nm[n].addresses| ==> Routed(v.networks, v.nm[n].addresses[i])
  }

  predicate Routed(networks: map<string, Network>, a: Address) {
    a.network in networks && networks[a.network].name == a.network && InBlock(networks[a.network].cidr, a.ip)
  }

  predicate FitsIPv4(c: ClusterInfo) { c.index <= 255 && c.servers <= 245 }

  lemma {:induction false} NetworksAt(shape: NetworkShape, cs: seq<ClusterInfo>, c: ClusterInfo)
    requires GoodInfos(cs) && GoodInfo(c)
    ensures var nets := NetworksOf(shape, cs);
            if shape == Flat then LAN in nets && nets[LAN] == Network(LAN, "10.0.0.0/16")
            else WAN in nets && nets[WAN] == Network(WAN, "10.1.0.0/16") &&
                 (c in cs ==> c.name in nets && nets[c.name] == Network(c.name, "10.0." + Itoa(c.index) + ".0/24"))
  {
    hide Itoa, ClusterNameOk, ClusterIndex;
    if shape != Flat && cs != [] {
      var rest, last := cs[..|cs| - 1], cs[|cs| - 1];
      assert cs == rest + [last];
      assert last in cs && GoodInfo(last);
      NameIsNotReserved(last.name);
      NetworksAt(shape, rest, c);
    }
  }

  lemma SlotAddressText(env: Env, s: Slot, i: nat)
    requires GoodInfo(s.cluster) && i < |SlotAddresses(env, s)|
    ensures var a, host := SlotAddresses(env, s)[i], Itoa(s.cluster.index) + "." + Itoa(Octet(s.role, s.idx));
            if i == 1 then env.shape != Flat && a == Address(WAN, "10.1." + host)
            else i == 0 && a == Address(if env.shape == Flat then LAN else s.cluster.name, "10.0." + host)
  {
    hide Itoa, Octet, ClusterNameOk, ClusterIndex;
    var host := Itoa(s.cluster.index) + "." + Itoa(Octet(s.role, s.idx));
    assert s.cluster.baseIP + "." + Itoa(Octet(s.role, s.idx)) == "10.0." + host;
    assert s.cluster.wanBaseIP + "." + Itoa(Octet(s.role, s.idx)) == "10.1." + host;
  }

  /** One address of a slot is routed exactly when its cluster index and host octet fit an octet. */
  lemma SlotRouted(env: Env, cs: seq<ClusterInfo>, s: Slot, i: nat)
    requires GoodInfos(cs) && s.cluster in cs && i < |SlotAddresses(env, s)|
    ensures Routed(NetworksOf(env.shape, cs), SlotAddresses(env, s)[i])
       <==> s.cluster.index <= 255 && Octet(s.role, s.idx) <= 255
  {
    var c := s.cluster;
    assert GoodInfo(c);
    hide InBlock, Itoa, Octet, NetworksOf, ClusterNameOk, ClusterIndex, OnWan, GoodInfos, GoodInfo, SlotAddresses;
    NetworksAt(env.shape, cs, c);
    var a := SlotAddresses(env, s)[i];
    SlotAddressText(env, s, i);
    if i == 1 {
      InSharedBlock(1, a.ip, c.index, Octet(s.role, s.idx));
    } else if env.shape == Flat {
      InSharedBlock(0, a.ip, c.index, Octet(s.role, s.idx));
    } else {
      InClusterBlock(c.index, Octet(s.role, s.idx));
    }
  }

  lemma SlotOctetBound(env: Env, c: ClusterInfo, s: Slot)
    requires GoodInfo(c) && c.servers <= 245 && s in SlotsOf(env, c)
    ensures Octet(s.role, s.idx) <= 255
  {
    hide Dead;
  }

  lemma FittingIsRouted(env: Env, cs: seq<ClusterInfo>, v: View)
    requires GoodInfos(cs) && Holds(env, Slots(env, cs), v.nm) && v.networks == NetworksOf(env.shape, cs)
    requires forall c :: c in cs ==> FitsIPv4(c)
    ensures AllRouted(v)
  {
    hide GoodInfo, Holds, Slots, SlotsOf, NetworksOf, Routed, Octet, SlotAddresses, SlotNode, SlotName;
    forall n, i | n in v.nm && 0 <= i < |v.nm[n].addresses| ensures Routed(v.networks, v.nm[n].addresses[i]) {
      var s := HoldsAt(env, Slots(env, cs), v.nm, n);
      SlotNodeNamed(env, s);
      SlotsMembership(env, cs, s);
      SlotOctetBound(env, s.cluster, s);
      SlotRouted(env, cs, s, i);
    }
  }

  lemma RoutedIsFitting(env: Env, cs: seq<ClusterInfo>, v: View, c: ClusterInfo)
    requires GoodInfos(cs) && Holds(env, Slots(env, cs), v.nm) && v.networks == NetworksOf(env.shape, cs)
    requires AllRouted(v) && c in cs
    ensures FitsIPv4(c)
  {
    assert GoodInfo(c);
    var last := Slot(c, ServerRole, c.servers);
    SlotsMembership(env, cs, last);
    assert last in SlotsOf(env, c);
    assert SlotName(last) in v.nm;
    hide GoodInfos, GoodInfo, Holds, Slots, SlotsOf, NetworksOf, Routed, SlotNode, SlotName;
    var t := HoldsAt(env, Slots(env, cs), v.nm, SlotName(last));
    SlotNodeNamed(env, t);
    SlotsMembership(env, cs, t);
    assert |SlotAddresses(env, t)| > 0;
    SlotRouted(env, cs, t, 0);
    SameNameSameHost(last, t);
  }

  lemma SameNameSameHost(s: Slot, t: Slot)
    requires GoodInfo(s.cluster) && GoodInfo(t.cluster) && SlotName(s) == SlotName(t)
    ensures s.cluster.index == t.cluster.index && Octet(s.role, s.idx) == Octet(t.role, t.idx)
  {
    hide NodeName, ClusterNameOk, ClusterIndex, Itoa;
    NodeNameInjective(s.cluster.name, s.role, s.idx, t.cluster.name, t.role, t.idx);
  }

  lemma {:induction false} NetworksIgnoreOrder(shape: NetworkShape, cs: seq<ClusterInfo>, ds: seq<ClusterInfo>)
    requires GoodInfos(cs) && GoodInfos(ds) && multiset(cs) == multiset(ds)
    ensures NetworksOf(shape, cs) == NetworksOf(shape, ds)
  {
    hide GoodInfo, NetworksOf;
    NetworkNames(shape, cs);
    NetworkNames(shape, ds);
    var a, b := NetworksOf(shape, cs), NetworksOf(shape, ds);
    forall c ensures c in cs <==> c in ds {
      assert c in multiset(cs) <==> c in multiset(ds);
    }
    assert a.Keys == b.Keys;
    forall n | n in a ensures a[n] == b[n] {
      if c :| c in cs && c.name == n && shape != Flat {
        NetworksAt(shape, cs, c);
        NetworksAt(shape, ds, c);
      } else {
        SharedNetworksAt(shape, cs);
        SharedNetworksAt(shape, ds);
      }
    }
  }

  lemma {:induction false} SharedNetworksAt(shape: NetworkShape, cs: seq<ClusterInfo>)
    requires GoodInfos(cs)
    ensures var nets := NetworksOf(shape, cs);
            if shape == Flat then LAN in nets && nets[LAN] == Network(LAN, "10.0.0.0/16")
            else WAN in nets && nets[WAN] == Network(WAN, "10.1.0.0/16")
  {
    hide Itoa, ClusterNameOk, ClusterIndex;
    if shape != Flat && cs != [] {
      var rest, last := cs[..|cs| - 1], cs[|cs| - 1];
      assert cs == rest + [last];
      assert last in cs && GoodInfo(last);
      NameIsNotReserved(last.name);
      SharedNetworksAt(shape, rest);
    }
  }

  lemma {:induction false} NetworkNames(shape: NetworkShape, cs: seq<ClusterInfo>)
    ensures NetworksOf(shape, cs).Keys
         == if shape == Flat then {LAN} else {WAN} + set c | c in cs :: c.name
  {
    if shape != Flat && cs != [] {
      var rest, last := cs[..|cs| - 1], cs[|cs| - 1];
      assert cs == rest + [last];
      NetworkNames(shape, rest);
      assert (set c | c in cs :: c.name) == (set c | c in rest :: c.name) + {last.name};
    } else {
      assert cs == [] ==> (set c | c in cs :: c.name) == {};
    }
  }

  /**
   * Every address lies inside a network the topology declares, in all three shapes, exactly when every
   * cluster index is at most 255 and no cluster has more than 245 servers.
   */
  lemma AddressesRoutedExactly(cfg: Config, v: View)
    requires Compilable(cfg) && IsCompiled(cfg, v)
    ensures AllRouted(v) <==> forall c :: c in v.clusters ==> FitsIPv4(c)
  {
    CompiledInfosAreGood(cfg, v);
    var env := EnvOf(cfg);
    var infos := InfosOf(cfg.linkMode == "peer", cfg.clusters);
    NetworksIgnoreOrder(env.shape, infos, v.clusters);
    assert v.networks == NetworksOf(env.shape, v.clusters);
    CompiledHolds(cfg, v);
    hide IsCompiled, Compilable, GoodInfos, Holds, Slots, EnvOf, NetworksOf, AllRouted, FitsIPv4;
    if AllRouted(v) {
      forall c | c in v.clusters ensures FitsIPv4(c) {
        RoutedIsFitting(env, v.clusters, v, c);
      }
    } else if forall c :: c in v.clusters ==> FitsIPv4(c) {
      FittingIsRouted(env, v.clusters, v);
    }
  }

  /** The networks of a topology: one shared one in the flat shape, else the wan and one per cluster. */
  lemma NetworksAsConfigured(cfg: Config, v: View)
    requires Compilable(cfg) && IsCompiled(cfg, v)
    ensures cfg.networkShape != "islands" && cfg.networkShape != "dual" ==>
              v.networks == map["lan" := Network("lan", "10.0.0.0/16")]
    ensures cfg.networkShape == "islands" || cfg.networkShape == "dual" ==>
              && v.networks.Keys == {"wan"} + (set c | c in v.clusters :: c.name)
              && v.networks["wan"] == Network("wan", "10.1.0.0/16")
              && forall c :: c in v.clusters ==> v.networks[c.name] == Network(c.name, "10.0." + Itoa(c.index) + ".0/24")
  {
    CompiledInfosAreGood(cfg, v);
    var env := EnvOf(cfg);
    NetworksIgnoreOrder(env.shape, InfosOf(cfg.linkMode == "peer", cfg.clusters), v.clusters);
    assert v.networks == NetworksOf(env.shape, v.clusters);
    assert env.shape == Flat <==> cfg.networkShape != "islands" && cfg.networkShape != "dual";
    hide IsCompiled, Compilable, EnvOf, NetworksOf, Itoa;
    SharedNetworksAt(env.shape, v.clusters);
    NetworkNames(env.shape, v.clusters);
    forall c | c in v.clusters && env.shape != Flat
      ensures v.networks[c.name] == Network(c.name, "10.0." + Itoa(c.index) + ".0/24")
    {
      assert GoodInfo(c);
      NetworksAt(env.shape, v.clusters, c);
    }
  }
}
