/**
 Picking the service whose intercept matches an address best. A score of 0 is an exact match,
 -1 none; the address score decides before the port score.

 Addresses are compared after parsing: an IP address is its bits, a name its characters, and
 which of the two a host is comes in as the target. Names are lower-cased as ASCII.
 */
module Intercepts {
  import opened Bytes

  type Ip = seq<bool>

  datatype Target = Address(ip: Ip) | Host(name: string)

  /** The leading bits all members share, out of `bits` in all. */
  datatype Cidr = Cidr(prefix: seq<bool>, bits: nat)

  datatype ZitiAddress = ZitiAddress(cidr: Option<Cidr>, ip: Option<Ip>, domain: string)

  datatype PortRange = PortRange(low: uint16, high: uint16)

  datatype Intercept = Intercept(
    addresses: seq<ZitiAddress>, portRanges: seq<PortRange>, protocols: seq<string>, service: string)

  function Lower(s: string): string {
    if s == [] then [] else [if 'A' <= s[0] <= 'Z' then s[0] + 32 as char else s[0]] + Lower(s[1..])
  }

  predicate HasSuffix(s: string, suffix: string) {
    |suffix| <= |s| && s[|s| - |suffix|..] == suffix
  }

  function DomainMatch(domain: string, hostname: string): int {
    if domain == "" then -1
    else if domain[0] == '*' then
      if HasSuffix(hostname, domain[1..]) then |hostname| - (|domain| - 1) else -1
    else if hostname == domain then 0 else -1
  }

  predicate Contains(c: Cidr, ip: Ip) {
    |ip| == c.bits && c.prefix <= ip
  }

  function Matches(a: ZitiAddress, target: Target): int {
    match target
    case Host(name) => DomainMatch(a.domain, Lower(name))
    case Address(ip) =>
      if a.ip.Some? then if ip == a.ip.value then 0 else -1
      else if a.cidr.Some? then if Contains(a.cidr.value, ip) then a.cidr.value.bits - |a.cidr.value.prefix| else -1
      else -1
  }

  function PortMatch(r: PortRange, port: uint16): int {
    if r.low <= port <= r.high then r.high - r.low else -1
  }

  /** The pattern of `a` together with `rest` free bits or characters makes up the target. */
  ghost predicate LeavesOpen(a: ZitiAddress, target: Target, rest: nat) {
    match target
    case Host(name) =>
      if a.domain != "" && a.domain[0] == '*' then exists front :: |front| == rest && Lower(name) == front + a.domain[1..]
      else a.domain != "" && rest == 0 && Lower(name) == a.domain
    case Address(ip) =>
      if a.ip.Some? then rest == 0 && ip == a.ip.value
      else a.cidr.Some? && |ip| == a.cidr.value.bits && exists tail :: |tail| == rest && ip == a.cidr.value.prefix + tail
  }

  /** The score is the number of characters or address bits the pattern leaves open, and -1 exactly if the target is not of that form. */
  lemma MatchesMeans(a: ZitiAddress, target: Target)
    ensures Matches(a, target) >= -1
    ensures Matches(a, target) == -1 <==> forall rest :: !LeavesOpen(a, target, rest)
    ensures forall rest :: LeavesOpen(a, target, rest) ==> Matches(a, target) == rest
  {
    match target
    case Host(name) =>
      if a.domain != "" && a.domain[0] == '*' {
        WildcardMeans(a, target);
      } else if a.domain == Lower(name) && a.domain != "" {
        assert LeavesOpen(a, target, 0);
      }
    case Address(ip) =>
      if a.ip.None? && a.cidr.Some? {
        NetworkMeans(a, target);
      } else if a.ip.Some? && ip == a.ip.value {
        assert LeavesOpen(a, target, 0);
      }
  }

  lemma WildcardMeans(a: ZitiAddress, target: Target)
    requires target.Host? && a.domain != "" && a.domain[0] == '*'
    ensures forall rest :: LeavesOpen(a, target, rest) ==> Matches(a, target) == rest
    ensures Matches(a, target) >= 0 ==> LeavesOpen(a, target, Matches(a, target))
    ensures Matches(a, target) >= -1
  {
    var host, suffix := Lower(target.name), a.domain[1..];
    SuffixSplits(host, suffix);
    if HasSuffix(host, suffix) {
      assert |host[..|host| - |suffix|]| == |host| - |suffix|;
    }
  }

  lemma NetworkMeans(a: ZitiAddress, target: Target)
    requires target.Address? && a.ip.None? && a.cidr.Some?
    ensures forall rest :: LeavesOpen(a, target, rest) ==> Matches(a, target) == rest
    ensures Matches(a, target) >= 0 ==> LeavesOpen(a, target, Matches(a, target))
    ensures Matches(a, target) >= -1
  {
    var c, ip := a.cidr.value, target.ip;
    if Contains(c, ip) {
      var tail := ip[|c.prefix|..];
      assert |tail| == Matches(a, target) && ip == c.prefix + tail;
    }
    forall tail | |ip| == c.bits && ip == c.prefix + tail ensures Contains(c, ip) && Matches(a, target) == |tail| {
      assert ip[..|c.prefix|] == c.prefix;
    }
  }

  /** A range matches exactly the ports it holds, and of two that match the one holding fewer ports scores lower. */
  lemma PortMatchMeans(r: PortRange, other: PortRange, port: uint16)
    ensures PortMatch(r, port) >= -1
    ensures PortMatch(r, port) != -1 <==> port in Ports(r.low, r.high)
    ensures port in Ports(r.low, r.high) && port in Ports(other.low, other.high) ==>
              (PortMatch(r, port) < PortMatch(other, port) <==> |Ports(r.low, r.high)| < |Ports(other.low, other.high)|)
  {
    PortsCount(r.low, r.high, port);
    PortsCount(other.low, other.high, port);
  }

  /** All ports from `low` to `high`, both included. */
  ghost function Ports(low: int, high: int): set<int>
    decreases high - low
  {
    if low > high then {} else {low} + Ports(low + 1, high)
  }

  lemma {:induction false} PortsCount(low: int, high: int, port: int)
    ensures port in Ports(low, high) <==> low <= port <= high
    ensures |Ports(low, high)| == if low <= high then high - low + 1 else 0
    decreases high - low
  {
    if low <= high {
      PortsCount(low + 1, high, port);
      PortsCount(low + 1, high, low);
    }
  }

  /** The same name but for the case of its ASCII letters. */
  predicate SameButCase(x: string, y: string) {
    |x| == |y| && forall i :: 0 <= i < |x| ==> x[i] == y[i] || ('A' <= x[i] <= 'Z' && y[i] == x[i] + 32 as char) || ('A' <= y[i] <= 'Z' && x[i] == y[i] + 32 as char)
  }

  predicate NoCapitals(s: string) {
    forall i :: 0 <= i < |s| ==> !('A' <= s[i] <= 'Z')
  }

  lemma {:induction false} LowerMeans(s: string)
    ensures SameButCase(s, Lower(s)) && NoCapitals(Lower(s))
  {
    if s != [] {
      LowerMeans(s[1..]);
      assert Lower(s)[1..] == Lower(s[1..]);
      forall i | 0 <= i < |s|
        ensures Lower(s)[i] == (if 'A' <= s[i] <= 'Z' then s[i] + 32 as char else s[i])
      {
        if i > 0 {
          assert Lower(s)[i] == Lower(s[1..])[i - 1] && s[i] == s[1..][i - 1];
        }
      }
    }
  }

  /** How a host is capitalised does not matter. */
  lemma {:induction false} CaseIsIgnored(a: ZitiAddress, x: string, y: string)
    requires SameButCase(x, y)
    ensures Matches(a, Host(x)) == Matches(a, Host(y))
  {
    LowerMeans(x);
    LowerMeans(y);
    assert Lower(x) == Lower(y);
  }

  /** A score of zero is an exact match, for networks, names and ports alike. */
  lemma ZeroIsExact(a: ZitiAddress, target: Target, r: PortRange, port: uint16)
    ensures PortMatch(r, port) == 0 <==> r.low == port == r.high
    ensures target.Address? && a.ip.None? && a.cidr.Some? ==>
              (Matches(a, target) == 0 <==> |target.ip| == a.cidr.value.bits && target.ip == a.cidr.value.prefix)
    ensures target.Address? && a.ip.Some? ==> (Matches(a, target) == 0 <==> target.ip == a.ip.value) && Matches(a, target) <= 0
    ensures target.Host? && a.domain != "" ==>
              (Matches(a, target) == 0 <==> Lower(target.name) == if a.domain[0] == '*' then a.domain[1..] else a.domain)
  {
    if target.Address? && a.cidr.Some? && Contains(a.cidr.value, target.ip) {
      assert |a.cidr.value.prefix| == |target.ip| ==> target.ip[..|target.ip|] == target.ip;
    }
    if target.Host? && a.domain != "" {
      var host := Lower(target.name);
      assert host[|host| - |host|..] == host;
    }
  }

  /** Of two networks that hold an address, the lower score is the longer prefix; of two wildcards that match a name, the longer suffix. */
  lemma SpecificScoresLower(a: ZitiAddress, b: ZitiAddress, target: Target)
    requires Matches(a, target) != -1 && Matches(b, target) != -1
    ensures target.Address? && a.ip.None? && b.ip.None? ==>
              (Matches(a, target) <= Matches(b, target) <==> b.cidr.value.prefix <= a.cidr.value.prefix)
    ensures target.Host? && a.domain[0] == '*' && b.domain[0] == '*' ==>
              (Matches(a, target) <= Matches(b, target) <==> HasSuffix(a.domain[1..], b.domain[1..]))
  {
    if target.Host? && a.domain[0] == '*' && b.domain[0] == '*' {
      SuffixesNest(Lower(target.name), a.domain[1..], b.domain[1..]);
    }
  }

  lemma SuffixesNest(s: string, long: string, short: string)
    requires HasSuffix(s, long) && HasSuffix(s, short)
    ensures |short| <= |long| <==> HasSuffix(long, short)
  {
    if |short| <= |long| {
      var n := |s| - |long|;
      assert long[|long| - |short|..] == s[n..][|long| - |short|..];
      assert s[n..][|long| - |short|..] == s[|s| - |short|..];
    }
  }

  lemma SuffixSplits(s: string, suffix: string)
    ensures HasSuffix(s, suffix) ==> s == s[..|s| - |suffix|] + suffix
    ensures forall front :: s == front + suffix ==> HasSuffix(s, suffix) && |front| == |s| - |suffix|
  {
    forall front | s == front + suffix ensures HasSuffix(s, suffix) {
      assert s[|s| - |suffix|..] == suffix;
    }
  }

  // ---------------------------------------------------------------- the best of several scores

  /** `r` is the least score other than -1, or -1 when there is none. */
  predicate IsLeast(r: int, scores: seq<int>) {
    && (r == -1 ==> forall k :: 0 <= k < |scores| ==> scores[k] == -1)
    && (r != -1 ==> r in scores)
    && forall k :: 0 <= k < |scores| && scores[k] != -1 ==> r <= scores[k]
  }

  function Least(scores: seq<int>): (r: int)
    requires forall k :: 0 <= k < |scores| ==> scores[k] >= -1
    ensures IsLeast(r, scores) && r >= -1
  {
    if scores == [] then -1
    else
      var rest, s := Least(scores[1..]), scores[0];
      assert scores == [s] + scores[1..];
      if s == -1 then rest else if rest == -1 || s < rest then s else rest
  }

  lemma LeastIsUnique(a: int, b: int, scores: seq<int>)
    requires IsLeast(a, scores) && IsLeast(b, scores)
    ensures a == b
  {
  }

  function AddressScores(addresses: seq<ZitiAddress>, target: Target): (s: seq<int>)
    ensures |s| == |addresses|
    ensures forall k :: 0 <= k < |s| ==> s[k] == Matches(addresses[k], target)
  {
    seq(|addresses|, k requires 0 <= k < |addresses| => Matches(addresses[k], target))
  }

  function PortScores(ranges: seq<PortRange>, port: uint16): (s: seq<int>)
    ensures |s| == |ranges|
    ensures forall k :: 0 <= k < |s| ==> s[k] == PortMatch(ranges[k], port)
  {
    seq(|ranges|, k requires 0 <= k < |ranges| => PortMatch(ranges[k], port))
  }

  function AddressScore(addresses: seq<ZitiAddress>, target: Target): (r: int) {
    MatchesAll(addresses, target);
    Least(AddressScores(addresses, target))
  }

  lemma MatchesAll(addresses: seq<ZitiAddress>, target: Target)
    ensures forall k :: 0 <= k < |addresses| ==> Matches(addresses[k], target) >= -1
  {
    forall k | 0 <= k < |addresses| ensures Matches(addresses[k], target) >= -1 {
      MatchesMeans(addresses[k], target);
    }
  }

  function PortScore(ranges: seq<PortRange>, port: uint16): int {
    Least(PortScores(ranges, port))
  }

  function Combined(addr: int, port: int): int {
    0x1_0000 * addr + port
  }

  function MatchScore(i: Intercept, network: string, target: Target, port: uint16): int {
    var a, p := AddressScore(i.addresses, target), PortScore(i.portRanges, port);
    if network !in i.protocols || a == -1 || p == -1 then -1 else Combined(a, p)
  }

  /** The pair (address, port range) at these places matches. */
  predicate PairMatches(i: Intercept, target: Target, port: uint16, a: nat, p: nat) {
    a < |i.addresses| && p < |i.portRanges| && Matches(i.addresses[a], target) != -1 && PortMatch(i.portRanges[p], port) != -1
  }

  function PairScore(i: Intercept, target: Target, port: uint16, a: nat, p: nat): (int, int)
    requires a < |i.addresses| && p < |i.portRanges|
  {
    (Matches(i.addresses[a], target), PortMatch(i.portRanges[p], port))
  }

  predicate LexLeq(x: (int, int), y: (int, int)) {
    x.0 < y.0 || (x.0 == y.0 && x.1 <= y.1)
  }

  /**
   The score is -1 exactly when the protocol is not listed or no pair matches; otherwise it is
   the lexicographic minimum of (address score, port score) over all matching pairs, which the
   packed number compares as.
   */
  lemma MatchIsBestPair(i: Intercept, network: string, target: Target, port: uint16)
    ensures var r := MatchScore(i, network, target, port);
            && (r == -1 <==> network !in i.protocols || forall a, p :: !PairMatches(i, target, port, a, p))
            && (r != -1 ==>
                  && (exists a, p :: PairMatches(i, target, port, a, p) && PairScore(i, target, port, a, p) == (r / 0x1_0000, r % 0x1_0000))
                  && (forall a, p :: PairMatches(i, target, port, a, p) ==> LexLeq((r / 0x1_0000, r % 0x1_0000), PairScore(i, target, port, a, p))))
  {
    var r := MatchScore(i, network, target, port);
    var a, p := AddressScore(i.addresses, target), PortScore(i.portRanges, port);
    var as_, ps := AddressScores(i.addresses, target), PortScores(i.portRanges, port);
    if r != -1 {
      var x :| 0 <= x < |as_| && as_[x] == a;
      var y :| 0 <= y < |ps| && ps[y] == p;
      Unpack(a, p);
      assert PairMatches(i, target, port, x, y);
    }
  }

  lemma Unpack(a: int, p: int)
    requires a >= 0 && 0 <= p < 0x1_0000
    ensures Combined(a, p) / 0x1_0000 == a && Combined(a, p) % 0x1_0000 == p && Combined(a, p) >= 0
  {
  }

  /** Comparing packed scores is comparing pairs. */
  lemma PackedOrder(a: int, p: int, b: int, q: int)
    requires 0 <= p < 0x1_0000 && 0 <= q < 0x1_0000
    ensures Combined(a, p) <= Combined(b, q) <==> LexLeq((a, p), (b, q))
  {
  }

  /** Both loops stop at the first exact match. */
  method Match(i: Intercept, network: string, target: Target, port: uint16) returns (r: int)
    ensures r == MatchScore(i, network, target, port)
  {
    if network !in i.protocols {
      return -1;
    }
    MatchesAll(i.addresses, target);
    var addrScore := BestAddress(i.addresses, target);
    if addrScore == -1 {
      return -1;
    }
    var portScore := BestPort(i.portRanges, port);
    if portScore == -1 {
      return -1;
    }
    return 0x1_0000 * addrScore + portScore;
  }

  method BestAddress(addresses: seq<ZitiAddress>, target: Target) returns (best: int)
    ensures best == AddressScore(addresses, target)
  {
    MatchesAll(addresses, target);
    ghost var scores := AddressScores(addresses, target);
    best := -1;
    for k := 0 to |addresses|
      invariant IsLeast(best, scores[..k]) && best != 0 && best >= -1
    {
      assert scores[..k + 1] == scores[..k] + [scores[k]];
      var score := Matches(addresses[k], target);
      if score == -1 {
        continue;
      }
      if score == 0 {
        best := 0;
        ZeroIsLeast(scores, k);
        LeastIsUnique(0, AddressScore(addresses, target), scores);
        return;
      }
      if best == -1 || score < best {
        best := score;
      }
    }
    assert scores[..|addresses|] == scores;
    LeastIsUnique(best, AddressScore(addresses, target), scores);
  }

  method BestPort(ranges: seq<PortRange>, port: uint16) returns (best: int)
    ensures best == PortScore(ranges, port)
  {
    ghost var scores := PortScores(ranges, port);
    best := -1;
    for k := 0 to |ranges|
      invariant IsLeast(best, scores[..k]) && best != 0 && best >= -1
    {
      assert scores[..k + 1] == scores[..k] + [scores[k]];
      var score := PortMatch(ranges[k], port);
      if score == -1 {
        continue;
      }
      if score == 0 {
        best := 0;
        ZeroIsLeast(scores, k);
        LeastIsUnique(0, PortScore(ranges, port), scores);
        return;
      }
      if best == -1 || score < best {
        best := score;
      }
    }
    assert scores[..|ranges|] == scores;
    LeastIsUnique(best, PortScore(ranges, port), scores);
  }

  lemma ZeroIsLeast(scores: seq<int>, k: nat)
    requires k < |scores| && scores[k] == 0 && forall j :: 0 <= j < |scores| ==> scores[j] >= -1
    ensures IsLeast(0, scores)
  {
  }

  // ---------------------------------------------------------------- choosing a service

  /** Go's order on strings. */
  predicate Before(a: string, b: string) {
    if b == [] then false
    else if a == [] then true
    else a[0] < b[0] || (a[0] == b[0] && Before(a[1..], b[1..]))
  }

  lemma {:induction false} BeforeIsStrict(a: string, b: string)
    ensures !(Before(a, b) && Before(b, a))
  {
    if a != [] && b != [] {
      BeforeIsStrict(a[1..], b[1..]);
    }
  }

  lemma {:induction false} BeforeIsTotal(a: string, b: string)
    ensures Before(a, b) || Before(b, a) || a == b
  {
    if a != [] && b != [] && a[0] == b[0] {
      BeforeIsTotal(a[1..], b[1..]);
      assert a == [a[0]] + a[1..] && b == [b[0]] + b[1..];
    }
  }

  lemma {:induction false} BeforeIsTransitive(a: string, b: string, c: string)
    requires Before(a, b) && Before(b, c)
    ensures Before(a, c)
  {
    if a != [] && a[0] == b[0] == c[0] {
      BeforeIsTransitive(a[1..], b[1..], c[1..]);
    }
  }

  /** The strings agree up to `i`, where `a` has the smaller character. */
  predicate SmallerAt(a: string, b: string, i: int) {
    0 <= i < |a| && i < |b| && a[..i] == b[..i] && a[i] < b[i]
  }

  lemma SmallerLater(a: string, b: string, i: int)
    requires a != [] && b != [] && a[0] == b[0]
    ensures SmallerAt(a, b, i) <==> SmallerAt(a[1..], b[1..], i - 1)
  {
    if 1 <= i < |a| && i < |b| {
      assert a[..i] == [a[0]] + a[1..][..i - 1] && b[..i] == [b[0]] + b[1..][..i - 1];
      assert a[..i][1..] == a[1..][..i - 1] && b[..i][1..] == b[1..][..i - 1];
    }
  }

  lemma PrefixLater(a: string, b: string)
    requires a != [] && b != [] && a[0] == b[0]
    ensures a < b <==> a[1..] < b[1..]
  {
    assert a == [a[0]] + a[1..] && b == [b[0]] + b[1..];
  }

  /** Before is the order of the first characters that differ; a proper prefix comes first. */
  lemma {:induction false} BeforeMeans(a: string, b: string)
    ensures Before(a, b) <==> (a < b || exists i :: SmallerAt(a, b, i))
  {
    if a != [] && b != [] {
      if a[0] == b[0] {
        BeforeMeans(a[1..], b[1..]);
        PrefixLater(a, b);
        if i :| SmallerAt(a, b, i) {
          SmallerLater(a, b, i);
        }
        if i :| SmallerAt(a[1..], b[1..], i) {
          SmallerLater(a, b, i + 1);
        }
      } else {
        assert SmallerAt(a, b, 0) <==> a[0] < b[0];
      }
    }
  }

  /** What the search looks for. */
  datatype Query = Query(network: string, target: Target, port: uint16)

  function ScoreOf(i: Intercept, q: Query): int {
    MatchScore(i, q.network, q.target, q.port)
  }

  lemma ScoreRange(i: Intercept, q: Query)
    ensures ScoreOf(i, q) >= -1
  {
    MatchesAll(i.addresses, q.target);
    Unpack(0, 0);
  }

  /** A service and how well it matches; -1 if it does not. */
  datatype Choice = Choice(service: string, score: int)

  /** All services with their scores, in iteration order. */
  function Candidates(intercepts: seq<Intercept>, q: Query): (s: seq<Choice>)
    ensures |s| == |intercepts|
    ensures forall k :: 0 <= k < |s| ==> s[k] == Choice(intercepts[k].service, ScoreOf(intercepts[k], q)) && s[k].score >= -1
  {
    var s := seq(|intercepts|, k requires 0 <= k < |intercepts| => Choice(intercepts[k].service, ScoreOf(intercepts[k], q)));
    assert forall k :: 0 <= k < |s| ==> s[k].score >= -1 by {
      forall k | 0 <= k < |s| ensures s[k].score >= -1 {
        ScoreRange(intercepts[k], q);
      }
    }
    s
  }

  /** A candidate no other one scores lower than. */
  predicate Best(c: Choice, all: seq<Choice>) {
    c.score != -1 && c in all && forall k :: 0 <= k < |all| && all[k].score != -1 ==> c.score <= all[k].score
  }

  /** No equally good service comes before the chosen one. */
  predicate First(c: Choice, all: seq<Choice>) {
    forall k :: 0 <= k < |all| && all[k].score == c.score ==> !Before(all[k].service, c.service)
  }

  predicate NoMatch(all: seq<Choice>) {
    forall k :: 0 <= k < |all| ==> all[k].score == -1
  }

  /** The exact match that comes first in iteration order. */
  ghost predicate FirstExact(c: Choice, all: seq<Choice>) {
    exists k :: 0 <= k < |all| && all[k] == c && forall j :: 0 <= j < k ==> all[j].score != 0
  }

  /** What the search has found after these candidates. */
  ghost predicate Found(c: Option<Choice>, seen: seq<Choice>) {
    NoExact(seen) && if c.None? then NoMatch(seen) else c.value.score > 0 && Best(c.value, seen) && First(c.value, seen)
  }

  predicate NoExact(seen: seq<Choice>) {
    forall j :: 0 <= j < |seen| ==> seen[j].score != 0
  }

  /** What the search returns: no match; or a best one, alphabetically first unless it is exact, and then the first in iteration order. */
  ghost predicate Answers(c: Option<Choice>, all: seq<Choice>) {
    if c.None? then NoMatch(all)
    else c.value.score >= 0 && Best(c.value, all) && (if c.value.score > 0 then First(c.value, all) else FirstExact(c.value, all))
  }

  method Candidate(intercepts: seq<Intercept>, q: Query, n: nat) returns (c: Choice)
    requires n < |intercepts|
    ensures c == Candidates(intercepts, q)[n]
  {
    var sc := Match(intercepts[n], q.network, q.target, q.port);
    c := Choice(intercepts[n].service, sc);
  }

  /** For intercepts in any iteration order. */
  method GetServiceForAddr(intercepts: seq<Intercept>, q: Query) returns (choice: Option<Choice>)
    ensures Answers(choice, Candidates(intercepts, q))
  {
    ghost var all := Candidates(intercepts, q);
    choice := None;
    for n := 0 to |intercepts|
      invariant Found(choice, all[..n])
    {
      var candidate := Candidate(intercepts, q, n);
      if candidate.score == 0 {
        ExactAnswers(choice, all, n);
        return Some(candidate);
      }
      Advances(choice, all, n);
      if Improves(candidate, choice) {
        choice := Some(candidate);
      }
    }
    FoundAnswers(choice, all);
  }

  lemma Advances(c: Option<Choice>, all: seq<Choice>, n: nat)
    requires n < |all| && Found(c, all[..n]) && all[n].score != 0 && all[n].score >= -1
    ensures Found(if Improves(all[n], c) then Some(all[n]) else c, all[..n + 1])
  {
    assert all[..n + 1] == all[..n] + [all[n]];
    Considered(c, all[..n], all[n]);
  }

  lemma ExactAnswers(c: Option<Choice>, all: seq<Choice>, n: nat)
    requires n < |all| && Found(c, all[..n]) && all[n].score == 0 && forall k :: 0 <= k < |all| ==> all[k].score >= -1
    ensures Answers(Some(all[n]), all)
  {
    ExactIsBest(all, n);
  }

  lemma FoundAnswers(c: Option<Choice>, all: seq<Choice>)
    requires Found(c, all[..|all|])
    ensures Answers(c, all)
  {
    assert all[..|all|] == all;
  }

  /** A lower score, or the same score and an earlier name. */
  predicate Improves(x: Choice, c: Option<Choice>) {
    x.score != -1 && (c.None? || c.value.score > x.score || (c.value.score == x.score && Before(x.service, c.value.service)))
  }

  lemma Considered(c: Option<Choice>, seen: seq<Choice>, x: Choice)
    requires Found(c, seen) && x.score != 0 && x.score >= -1
    ensures Found(if Improves(x, c) then Some(x) else c, seen + [x])
  {
    var all := seen + [x];
    assert x == all[|seen|];
    if Improves(x, c) {
      BeforeIsStrict(x.service, x.service);
      forall k | 0 <= k < |seen| && seen[k].score == x.score ensures !Before(seen[k].service, x.service) {
        if Before(seen[k].service, x.service) {
          BeforeIsTransitive(seen[k].service, x.service, c.value.service);
        }
      }
    }
  }

  lemma ExactIsBest(all: seq<Choice>, n: nat)
    requires n < |all| && all[n].score == 0 && forall k :: 0 <= k < |all| ==> all[k].score >= -1
    requires NoExact(all[..n])
    ensures Best(all[n], all) && FirstExact(all[n], all)
  {
    assert forall j :: 0 <= j < n ==> all[j] == all[..n][j];
  }

  /** The score found does not depend on the order of iteration. */
  lemma ScoreIsOrderFree(a: Choice, b: Choice, all: seq<Choice>, order: seq<Choice>)
    requires multiset(all) == multiset(order) && Best(a, all) && Best(b, order)
    ensures a.score == b.score
  {
    SameMembers(all, order, a);
    SameMembers(all, order, b);
  }

  lemma SameMembers(all: seq<Choice>, order: seq<Choice>, x: Choice)
    requires multiset(all) == multiset(order)
    ensures x in all <==> x in order
  {
    assert x in all <==> x in multiset(all);
    assert x in order <==> x in multiset(order);
  }

  /** In every order the alphabetically first of the best services is returned. */
  ghost predicate AlwaysFirst(all: seq<Choice>) {
    forall order, c :: multiset(order) == multiset(all) && Answers(Some(c), order) ==> First(c, all)
  }

  /** All exact matches carry one name. */
  predicate OneExactName(all: seq<Choice>) {
    forall i, j :: 0 <= i < j < |all| && all[i].score == 0 && all[j].score == 0 ==> all[i].service == all[j].service
  }

  /**
   The alphabetical rule holds in every iteration order exactly when no two exact matches have
   different names; in particular whenever the best score is above zero.
   */
  lemma AlphabeticalExactly(all: seq<Choice>)
    requires forall k :: 0 <= k < |all| ==> all[k].score >= -1
    ensures AlwaysFirst(all) <==> OneExactName(all)
  {
    if OneExactName(all) {
      forall order, c | multiset(order) == multiset(all) && Answers(Some(c), order) ensures First(c, all) {
        OneNameIsFirst(all, order, c);
      }
    } else {
      var i, j :| 0 <= i < j < |all| && all[i].score == 0 && all[j].score == 0 && all[i].service != all[j].service;
      BeforeIsTotal(all[i].service, all[j].service);
      if Before(all[i].service, all[j].service) {
        LaterCanWin(all, i, j);
      } else {
        LaterCanWin(all, j, i);
      }
    }
  }

  lemma OneNameIsFirst(all: seq<Choice>, order: seq<Choice>, c: Choice)
    requires OneExactName(all) && multiset(order) == multiset(all) && Answers(Some(c), order)
    requires forall k :: 0 <= k < |all| ==> all[k].score >= -1
    ensures First(c, all)
  {
    SameMembers(all, order, c);
    forall k | 0 <= k < |all| && all[k].score == c.score ensures !Before(all[k].service, c.service) {
      SameMembers(all, order, all[k]);
      if c.score == 0 {
        var n :| 0 <= n < |all| && all[n] == c;
        BeforeIsStrict(c.service, c.service);
      }
    }
  }

  lemma MovedToFront(all: seq<Choice>, n: nat) returns (order: seq<Choice>)
    requires n < |all|
    ensures order != [] && order[0] == all[n] && multiset(order) == multiset(all)
  {
    order := [all[n]] + all[..n] + all[n + 1..];
    assert all == all[..n] + [all[n]] + all[n + 1..];
  }

  /** Iterated first, an exact match wins over an alphabetically earlier one. */
  lemma LaterCanWin(all: seq<Choice>, early: nat, late: nat)
    requires early < |all| && late < |all| && all[early].score == 0 && all[late].score == 0
    requires Before(all[early].service, all[late].service)
    requires forall k :: 0 <= k < |all| ==> all[k].score >= -1
    ensures !AlwaysFirst(all)
  {
    var c := all[late];
    var order := MovedToFront(all, late);
    forall k | 0 <= k < |order| ensures order[k].score >= -1 {
      SameMembers(all, order, order[k]);
    }
    ExactIsBest(order, 0);
    assert Answers(Some(c), order);
  }

  /** A service that intercepts one address and one port. */
  function Exactly(ip: Ip, port: uint16, service: string): Intercept {
    Intercept([ZitiAddress(None, Some(ip), "")], [PortRange(port, port)], ["tcp"], service)
  }

  lemma ExactScore(ip: Ip, port: uint16, service: string)
    ensures ScoreOf(Exactly(ip, port, service), Query("tcp", Address(ip), port)) == 0
  {
    var i := Exactly(ip, port, service);
    assert AddressScores(i.addresses, Address(ip)) == [0];
    assert PortScores(i.portRanges, port) == [0];
    assert "tcp" == i.protocols[0];
  }

  /** Two services that intercept the same address and port: the one iterated first is returned, whatever their names. */
  lemma {:induction false} ExactTieDependsOnOrder(ip: Ip, port: uint16, a: string, b: string, c: Option<Choice>)
    requires Answers(c, Candidates([Exactly(ip, port, a), Exactly(ip, port, b)], Query("tcp", Address(ip), port)))
    ensures c == Some(Choice(a, 0))
    ensures Before(b, a) ==> !First(c.value, Candidates([Exactly(ip, port, a), Exactly(ip, port, b)], Query("tcp", Address(ip), port)))
  {
    ExactScore(ip, port, a);
    ExactScore(ip, port, b);
    var q := Query("tcp", Address(ip), port);
    var all := Candidates([Exactly(ip, port, a), Exactly(ip, port, b)], q);
    assert all[0] == Choice(a, 0) && all[1] == Choice(b, 0);
    if c.Some? {
      assert all[0].score != -1 ==> c.value.score <= all[0].score;
    }
  }
}
