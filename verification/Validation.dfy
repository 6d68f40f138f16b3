/** Conflict checks on a server's proxy bindings, and what passing them guarantees later. */
module Validation {
  import opened Wrappers
  import opened Subsequences
  import opened Routing
  import opened EntryNames

  datatype Binding = Binding(name: string, port: int)

  datatype HttpBinding = HttpBinding(name: string, port: int, hosts: seq<string>, path: string)

  datatype ServerConfig =
    ServerConfig(tcp: seq<Binding>, udp: seq<Binding>, http: seq<HttpBinding>, https: seq<Binding>)

  const MAX_PROXY_NAME_LENGTH := 64
  const MAX_PORT := 65535
  const MAX_HTTP_ROUTE_COUNT := 256

  // Fields.

  predicate ValidName(name: string) { name != "" && |name| <= MAX_PROXY_NAME_LENGTH && ':' !in name }

  predicate ValidPort(port: int) { 1 <= port <= MAX_PORT }

  predicate IsSpace(c: char) { '\t' <= c <= '\r' || c == ' ' || c == 0x85 as char || c == 0xA0 as char }

  function TrimLeft(s: string): string
    decreases |s|
  {
    if s != "" && IsSpace(s[0]) then TrimLeft(s[1..]) else s
  }

  function TrimRight(s: string): string
    decreases |s|
  {
    if s != "" && IsSpace(Last(s)) then TrimRight(Init(s)) else s
  }

  function Trim(s: string): string { TrimRight(TrimLeft(s)) }

  predicate Blank(s: string) { forall k :: 0 <= k < |s| ==> IsSpace(s[k]) }

  lemma {:induction false} TrimLeftMeans(s: string) returns (a: string)
    ensures s == a + TrimLeft(s) && Blank(a) && (TrimLeft(s) != "" ==> !IsSpace(TrimLeft(s)[0]))
    decreases |s|
  {
    if s != "" && IsSpace(s[0]) {
      var b := TrimLeftMeans(s[1..]);
      a := [s[0]] + b;
    } else {
      a := "";
    }
  }

  lemma {:induction false} TrimRightMeans(s: string) returns (b: string)
    ensures s == TrimRight(s) + b && Blank(b) && (TrimRight(s) != "" ==> !IsSpace(Last(TrimRight(s))))
    decreases |s|
  {
    if s != "" && IsSpace(Last(s)) {
      Split(s);
      var c := TrimRightMeans(Init(s));
      b := c + [Last(s)];
    } else {
      b := "";
    }
  }

  /** Trimming takes the blanks off both ends and no more. */
  lemma TrimMeans(s: string) returns (a: string, b: string)
    ensures s == a + Trim(s) + b && Blank(a) && Blank(b)
    ensures Trim(s) != "" ==> !IsSpace(Trim(s)[0]) && !IsSpace(Last(Trim(s)))
  {
    a := TrimLeftMeans(s);
    b := TrimRightMeans(TrimLeft(s));
    assert a + (Trim(s) + b) == a + Trim(s) + b;
    if Trim(s) != "" { assert Trim(s)[0] == TrimLeft(s)[0]; }
  }

  predicate ValidHosts(hosts: seq<string>) {
    1 <= |hosts| <= MAX_HTTP_ROUTE_COUNT && forall h :: h in hosts ==> Trim(h) != ""
  }

  predicate ValidPath(path: string) { path == "" || (path[0] == '/' && '?' !in path && '#' !in path) }

  predicate FieldsValid(c: ServerConfig) {
    && (forall b :: b in c.tcp + c.udp + c.https ==> ValidName(b.name) && ValidPort(b.port))
    && (forall b :: b in c.http ==> ValidName(b.name) && ValidPort(b.port) && ValidHosts(b.hosts) && ValidPath(b.path))
  }

  // Repetitions.

  predicate Distinct<T(==)>(s: seq<T>) { forall i, j :: 0 <= i < j < |s| ==> s[i] != s[j] }

  /** The places whose element has occurred before. */
  function Repeats<T(==)>(s: seq<T>): seq<nat>
    decreases |s|
  {
    if s == [] then [] else Repeats(Init(s)) + if Last(s) in Init(s) then [|s| - 1] else []
  }

  lemma {:induction false} NoRepeats<T>(s: seq<T>)
    ensures Repeats(s) == [] <==> Distinct(s)
    decreases |s|
  {
    if s != [] {
      NoRepeats(Init(s));
      if Last(s) in Init(s) {
        var i :| 0 <= i < |s| - 1 && Init(s)[i] == Last(s);
        assert s[i] == s[|s| - 1];
      } else if Distinct(Init(s)) {
        forall i, j | 0 <= i < j < |s| ensures s[i] != s[j] {
          assert s[i] == Init(s)[i];
          if j < |s| - 1 { assert s[j] == Init(s)[j]; }
        }
      } else {
        var i, j :| 0 <= i < j < |Init(s)| && Init(s)[i] == Init(s)[j];
        assert s[i] == s[j];
      }
    }
  }

  lemma {:induction false} RepeatsRise<T>(s: seq<T>)
    ensures Rising(Repeats(s), |s|)
    decreases |s|
  {
    if s != [] { RepeatsRise(Init(s)); }
  }

  lemma {:induction false} RepeatsAt<T>(s: seq<T>, k: nat)
    ensures k in Repeats(s) <==> k < |s| && s[k] in s[..k]
    decreases |s|
  {
    if s != [] {
      var last := |s| - 1;
      RepeatsAt(Init(s), k);
      RepeatsRise(Init(s));
      assert Repeats(s) == Repeats(Init(s)) + if Last(s) in Init(s) then [last] else [];
      hide Repeats;
      if k < last {
        assert Init(s)[..k] == s[..k];
      } else if k == last {
        assert s[..k] == Init(s);
      }
    }
  }

  /** The places reported are just those whose element stands at an earlier place too, in order. */
  lemma RepeatsAre<T>(s: seq<T>)
    ensures forall k: nat :: k in Repeats(s) <==> k < |s| && s[k] in s[..k]
    ensures Rising(Repeats(s), |s|)
  {
    RepeatsRise(s);
    forall k: nat { RepeatsAt(s, k); }
  }

  /** Places below `n`, each once and in order. */
  predicate Rising(places: seq<nat>, n: nat) {
    && (forall i :: 0 <= i < |places| ==> places[i] < n)
    && forall i, j :: 0 <= i < j < |places| ==> places[i] < places[j]
  }

  method FindRepeats<T(==)>(s: seq<T>) returns (places: seq<nat>)
    ensures places == Repeats(s)
  {
    var seen := {};
    places := [];
    for k := 0 to |s|
      invariant places == Repeats(s[..k])
      invariant forall x :: x in seen <==> x in s[..k]
    {
      assert Init(s[..k + 1]) == s[..k];
      if s[k] in seen {
        places := places + [k];
      } else {
        seen := seen + {s[k]};
      }
    }
    assert s[..|s|] == s;
  }

  // Names.

  function Names(bindings: seq<Binding>): seq<string> {
    seq(|bindings|, i requires 0 <= i < |bindings| => bindings[i].name)
  }

  function HttpNames(bindings: seq<HttpBinding>): seq<string> {
    seq(|bindings|, i requires 0 <= i < |bindings| => bindings[i].name)
  }

  /** All proxy names, in the order in which they are checked. */
  function AllNames(c: ServerConfig): seq<string> {
    Names(c.tcp) + Names(c.udp) + HttpNames(c.http) + Names(c.https)
  }

  method DuplicateBindingNames(c: ServerConfig) returns (problems: seq<nat>)
    ensures problems == Repeats(AllNames(c)) && Rising(problems, |AllNames(c)|)
    ensures forall k: nat :: k in problems <==> k < |AllNames(c)| && AllNames(c)[k] in AllNames(c)[..k]
  {
    RepeatsAre(AllNames(c));
    problems := FindRepeats(AllNames(c));
  }

  // Ports.

  /** The name of the first binding of a port. */
  function Owner(bindings: seq<Binding>, port: int): Option<string> {
    if bindings == [] then None
    else if bindings[0].port == port then Some(bindings[0].name)
    else Owner(bindings[1..], port)
  }

  lemma {:induction false} OwnerOf(bindings: seq<Binding>, port: int)
    ensures Owner(bindings, port).None? <==> forall b :: b in bindings ==> b.port != port
    ensures Owner(bindings, port).Some? ==>
              exists b :: b in bindings && b.port == port && b.name == Owner(bindings, port).value
  {
    if bindings != [] {
      assert bindings[0] in bindings && bindings == [bindings[0]] + bindings[1..];
      OwnerOf(bindings[1..], port);
    }
  }

  lemma {:induction false} OwnerOfMore(bindings: seq<Binding>, b: Binding, port: int)
    ensures Owner(bindings + [b], port) ==
            if Owner(bindings, port).Some? then Owner(bindings, port) else if b.port == port then Some(b.name) else None
  {
    if bindings != [] {
      OwnerOfMore(bindings[1..], b, port);
      assert (bindings + [b])[1..] == bindings[1..] + [b];
    }
  }

  /** Port 0 is no entry, and a name declared twice is reported as that only. */
  predicate Clash(owner: Option<string>, name: string, port: int) {
    port != 0 && owner.Some? && owner.value != name
  }

  /** The places of exclusive bindings whose port an earlier one has under another name. */
  function Clashes(bindings: seq<Binding>): seq<nat>
    decreases |bindings|
  {
    if bindings == [] then []
    else
      var b := Last(bindings);
      Clashes(Init(bindings)) + if Clash(Owner(Init(bindings), b.port), b.name, b.port) then [|bindings| - 1] else []
  }

  function HttpClashes(http: seq<HttpBinding>, exclusive: seq<Binding>): seq<nat>
    decreases |http|
  {
    if http == [] then []
    else
      var b := Last(http);
      HttpClashes(Init(http), exclusive) + if Clash(Owner(exclusive, b.port), b.name, b.port) then [|http| - 1] else []
  }

  /** The first binding of the port, if any, has another name. */
  predicate TakenBefore(bindings: seq<Binding>, name: string, port: int) {
    port != 0 && exists j :: 0 <= j < |bindings| && bindings[j].port == port && bindings[j].name != name &&
                             forall i :: 0 <= i < j ==> bindings[i].port != port
  }

  lemma {:induction false} ClashMeans(bindings: seq<Binding>, name: string, port: int)
    ensures Clash(Owner(bindings, port), name, port) <==> TakenBefore(bindings, name, port)
    decreases |bindings|
  {
    if bindings != [] && bindings[0].port != port {
      var rest := bindings[1..];
      ClashMeans(rest, name, port);
      if TakenBefore(rest, name, port) {
        var j :| 0 <= j < |rest| && rest[j].port == port && rest[j].name != name &&
                 forall i :: 0 <= i < j ==> rest[i].port != port;
        assert bindings[j + 1] == rest[j];
        forall i | 0 <= i < j + 1 ensures bindings[i].port != port {
          if i > 0 { assert bindings[i] == rest[i - 1]; }
        }
      }
      if TakenBefore(bindings, name, port) {
        var j :| 0 <= j < |bindings| && bindings[j].port == port && bindings[j].name != name &&
                 forall i :: 0 <= i < j ==> bindings[i].port != port;
        assert rest[j - 1] == bindings[j];
        forall i | 0 <= i < j - 1 ensures rest[i].port != port { assert rest[i] == bindings[i + 1]; }
      }
    }
  }

  /** The places reported are just those whose port an earlier binding had first, under another name. */
  lemma {:induction false} ClashesAre(bindings: seq<Binding>)
    ensures forall k: nat :: k in Clashes(bindings) <==>
              k < |bindings| && TakenBefore(bindings[..k], bindings[k].name, bindings[k].port)
    ensures Rising(Clashes(bindings), |bindings|)
    decreases |bindings|
  {
    if bindings != [] {
      var init := Init(bindings);
      ClashesAre(init);
      ClashMeans(init, Last(bindings).name, Last(bindings).port);
      forall k: nat | k < |init| ensures init[..k] == bindings[..k] && init[k] == bindings[k] {}
      assert bindings[..|init|] == init;
    }
  }

  lemma {:induction false} HttpClashesAre(http: seq<HttpBinding>, exclusive: seq<Binding>)
    ensures forall k: nat :: k in HttpClashes(http, exclusive) <==>
              k < |http| && TakenBefore(exclusive, http[k].name, http[k].port)
    ensures Rising(HttpClashes(http, exclusive), |http|)
    decreases |http|
  {
    if http != [] {
      HttpClashesAre(Init(http), exclusive);
      ClashMeans(exclusive, Last(http).name, Last(http).port);
    }
  }

  method ExclusivePorts(bindings: seq<Binding>) returns (ports: map<int, string>)
    ensures forall p :: p in ports <==> p != 0 && Owner(bindings, p).Some?
    ensures forall p :: p in ports ==> Some(ports[p]) == Owner(bindings, p)
  {
    ports := map[];
    for k := 0 to |bindings|
      invariant forall p :: p in ports <==> p != 0 && Owner(bindings[..k], p).Some?
      invariant forall p :: p in ports ==> Some(ports[p]) == Owner(bindings[..k], p)
    {
      var b := bindings[k];
      assert bindings[..k + 1] == bindings[..k] + [b];
      forall p { OwnerOfMore(bindings[..k], b, p); }
      if b.port != 0 && b.port !in ports {
        ports := ports[b.port := b.name];
      }
    }
    assert bindings[..|bindings|] == bindings;
  }

  method ValidatePortConflicts(c: ServerConfig) returns (http: seq<nat>, exclusive: seq<nat>)
    ensures http == HttpClashes(c.http, c.https + c.tcp + c.udp)
    ensures exclusive == Clashes(c.tcp + c.udp + c.https)
    ensures Rising(http, |c.http|) && Rising(exclusive, |c.tcp + c.udp + c.https|)
    ensures forall k: nat :: k in http <==>
              k < |c.http| && TakenBefore(c.https + c.tcp + c.udp, c.http[k].name, c.http[k].port)
    ensures var all := c.tcp + c.udp + c.https;
            forall k: nat :: k in exclusive <==> k < |all| && TakenBefore(all[..k], all[k].name, all[k].port)
  {
    hide TakenBefore, Rising;
    HttpClashesAre(c.http, c.https + c.tcp + c.udp);
    ClashesAre(c.tcp + c.udp + c.https);
    var ports := ExclusivePorts(c.https + c.tcp + c.udp);
    http := [];
    for k := 0 to |c.http|
      invariant http == HttpClashes(c.http[..k], c.https + c.tcp + c.udp)
    {
      assert Init(c.http[..k + 1]) == c.http[..k];
      var b := c.http[k];
      if b.port in ports && ports[b.port] != b.name {
        http := http + [k];
      }
    }
    assert c.http[..|c.http|] == c.http;
    exclusive := CheckExclusive(c.tcp + c.udp + c.https);
  }

  /** What the scan knows of the bindings `done`: who had each port first, and who came too late. */
  ghost predicate Scanned(done: seq<Binding>, seen: map<int, string>, clashes: seq<nat>) {
    && clashes == Clashes(done)
    && (forall p :: p in seen <==> p != 0 && Owner(done, p).Some?)
    && (forall p :: p in seen ==> Some(seen[p]) == Owner(done, p))
  }

  lemma ScannedMore(done: seq<Binding>, seen: map<int, string>, clashes: seq<nat>, b: Binding)
    requires Scanned(done, seen, clashes)
    ensures var clash := b.port in seen && seen[b.port] != b.name;
            Scanned(done + [b], if b.port == 0 || b.port in seen then seen else seen[b.port := b.name],
                    if clash then clashes + [|done|] else clashes)
  {
    Snoc(done, b);
    forall p { OwnerOfMore(done, b, p); }
    hide Owner;
  }

  method CheckExclusive(bindings: seq<Binding>) returns (clashes: seq<nat>)
    ensures clashes == Clashes(bindings)
  {
    hide Clashes, Owner;
    var seen := map[];
    clashes := [];
    assert Scanned([], seen, clashes) by { NothingScanned(); }
    for k := 0 to |bindings|
      invariant Scanned(bindings[..k], seen, clashes)
    {
      var b := bindings[k];
      assert bindings[..k + 1] == bindings[..k] + [b];
      ScannedMore(bindings[..k], seen, clashes, b);
      if b.port != 0 {
        if b.port !in seen {
          seen := seen[b.port := b.name];
        } else if seen[b.port] != b.name {
          clashes := clashes + [k];
        }
      }
    }
    assert bindings[..|bindings|] == bindings;
  }

  lemma NothingScanned()
    ensures Scanned([], map[], [])
  {}

  // Routes.

  datatype Claim = Claim(port: int, host: string, path: string)

  function RoutePath(path: string): string { if path == "" then "/" else path }

  function ClaimsOf(b: HttpBinding): seq<Claim> {
    seq(|b.hosts|, i requires 0 <= i < |b.hosts| => Claim(b.port, Lower(Trim(b.hosts[i])), RoutePath(b.path)))
  }

  function Claims(http: seq<HttpBinding>): seq<Claim>
    decreases |http|
  {
    if http == [] then [] else Claims(Init(http)) + ClaimsOf(Last(http))
  }

  method ValidateHTTPRouteConflicts(http: seq<HttpBinding>) returns (problems: seq<nat>)
    ensures problems == Repeats(Claims(http)) && Rising(problems, |Claims(http)|)
    ensures forall k: nat :: k in problems <==> k < |Claims(http)| && Claims(http)[k] in Claims(http)[..k]
  {
    hide Rising;
    RepeatsAre(Claims(http));
    var seen: set<Claim> := {};
    var count := 0;
    problems := [];
    for k := 0 to |http|
      invariant Checked(Claims(http[..k]), count, seen, problems)
    {
      assert Init(http[..k + 1]) == http[..k];
      count, seen, problems := CheckHosts(http[k], count, seen, problems, Claims(http[..k]));
    }
    assert http[..|http|] == http;
  }

  /** What the scan knows after the claims `done`. */
  ghost predicate Checked(done: seq<Claim>, count: nat, seen: set<Claim>, problems: seq<nat>) {
    count == |done| && problems == Repeats(done) && forall x :: x in seen <==> x in done
  }

  lemma CheckedMore(done: seq<Claim>, count: nat, seen: set<Claim>, problems: seq<nat>, claim: Claim)
    requires Checked(done, count, seen, problems)
    ensures claim in seen ==> Checked(done + [claim], count + 1, seen, problems + [count])
    ensures claim !in seen ==> Checked(done + [claim], count + 1, seen + {claim}, problems)
  {
    Snoc(done, claim);
  }

  method CheckHosts(b: HttpBinding, count: nat, seen: set<Claim>, problems: seq<nat>, ghost done: seq<Claim>)
    returns (count': nat, seen': set<Claim>, problems': seq<nat>)
    requires Checked(done, count, seen, problems)
    ensures Checked(done + ClaimsOf(b), count', seen', problems')
  {
    count', seen', problems' := count, seen, problems;
    ghost var all := ClaimsOf(b);
    assert done + all[..0] == done;
    for h := 0 to |b.hosts|
      invariant Checked(done + all[..h], count', seen', problems')
    {
      var claim := Claim(b.port, Lower(Trim(b.hosts[h])), RoutePath(b.path));
      assert done + all[..h + 1] == done + all[..h] + [claim];
      CheckedMore(done + all[..h], count', seen', problems', claim);
      if claim in seen' {
        problems' := problems' + [count'];
      } else {
        seen' := seen' + {claim};
      }
      count' := count' + 1;
    }
    assert all[..|b.hosts|] == all;
  }

  // What the checks mean together.

  /** Names pairwise distinct; exclusive ports pairwise distinct and apart from HTTP ports; no two
      HTTP routes of a port with the same host and path. Port 0 stands for no entry. */
  predicate ConflictFree(c: ServerConfig) {
    && Distinct(AllNames(c))
    && PortsApart(c.tcp + c.udp + c.https)
    && (forall h, b :: h in c.http && b in c.tcp + c.udp + c.https && h.port != 0 ==> h.port != b.port)
    && Distinct(Claims(c.http))
  }

  predicate PortsApart(bindings: seq<Binding>) {
    forall i, j :: 0 <= i < j < |bindings| && bindings[i].port != 0 ==> bindings[i].port != bindings[j].port
  }

  /** Two hosts of HTTP proxies mean the same requests: the same port and path, and the same host up to
      blanks around it and the case of its letters. */
  predicate SameClaim(b: HttpBinding, g: string, c: HttpBinding, h: string) {
    && b.port == c.port && SameHostName(Trim(g), Trim(h))
    && (if b.path == "" then "/" else b.path) == (if c.path == "" then "/" else c.path)
  }

  /** No two hosts, of one proxy or of two, mean the same requests. */
  predicate HostsApart(http: seq<HttpBinding>) {
    && (forall k, i, j :: 0 <= k < |http| && 0 <= i < j < |http[k].hosts| ==>
          !SameClaim(http[k], http[k].hosts[i], http[k], http[k].hosts[j]))
    && (forall k, l, g, h :: 0 <= k < l < |http| && g in http[k].hosts && h in http[l].hosts ==>
          !SameClaim(http[k], g, http[l], h))
  }

  lemma ClaimsTell(b: HttpBinding, g: string, c: HttpBinding, h: string)
    ensures Claim(b.port, Lower(Trim(g)), RoutePath(b.path)) == Claim(c.port, Lower(Trim(h)), RoutePath(c.path)) <==>
            SameClaim(b, g, c, h)
  {
    LowerTellsHosts(Trim(g), Trim(h));
  }

  lemma OwnClaimsApart(b: HttpBinding)
    ensures Distinct(ClaimsOf(b)) <==>
            forall i, j :: 0 <= i < j < |b.hosts| ==> !SameClaim(b, b.hosts[i], b, b.hosts[j])
  {
    hide SameClaim, RoutePath, Lower, Trim;
    forall i, j | 0 <= i < j < |b.hosts|
      ensures ClaimsOf(b)[i] == ClaimsOf(b)[j] <==> SameClaim(b, b.hosts[i], b, b.hosts[j])
    {
      ClaimsTell(b, b.hosts[i], b, b.hosts[j]);
    }
  }

  lemma {:induction false} ClaimsAre(http: seq<HttpBinding>, x: Claim)
    ensures x in Claims(http) <==>
            exists k, h :: 0 <= k < |http| && h in http[k].hosts &&
                           x == Claim(http[k].port, Lower(Trim(h)), RoutePath(http[k].path))
    decreases |http|
  {
    hide Lower, Trim, RoutePath;
    if http != [] {
      var init, b := Init(http), Last(http);
      ClaimsAre(init, x);
      if x in ClaimsOf(b) {
        var i :| 0 <= i < |b.hosts| && ClaimsOf(b)[i] == x;
        assert b.hosts[i] in http[|http| - 1].hosts;
      }
      if k, h :| 0 <= k < |http| && h in http[k].hosts &&
                  x == Claim(http[k].port, Lower(Trim(h)), RoutePath(http[k].path)) {
        if k < |init| {
          assert init[k] == http[k];
        } else {
          var i :| 0 <= i < |b.hosts| && b.hosts[i] == h;
          assert ClaimsOf(b)[i] == x;
        }
      }
      if k, h :| 0 <= k < |init| && h in init[k].hosts &&
                 x == Claim(init[k].port, Lower(Trim(h)), RoutePath(init[k].path)) {
        assert http[k] == init[k];
      }
    }
  }

  lemma OthersApart(http: seq<HttpBinding>, b: HttpBinding)
    ensures (forall x :: x in Claims(http) ==> x !in ClaimsOf(b)) <==>
            forall k, g, h :: 0 <= k < |http| && g in http[k].hosts && h in b.hosts ==> !SameClaim(http[k], g, b, h)
  {
    hide Lower, Trim, RoutePath, SameClaim;
    if x :| x in Claims(http) && x in ClaimsOf(b) {
      ClaimsAre(http, x);
      var k, g :| 0 <= k < |http| && g in http[k].hosts &&
                  x == Claim(http[k].port, Lower(Trim(g)), RoutePath(http[k].path));
      var j :| 0 <= j < |b.hosts| && ClaimsOf(b)[j] == x;
      ClaimsTell(http[k], g, b, b.hosts[j]);
      assert b.hosts[j] in b.hosts;
    }
    if k, g, h :| 0 <= k < |http| && g in http[k].hosts && h in b.hosts && SameClaim(http[k], g, b, h) {
      var x := Claim(http[k].port, Lower(Trim(g)), RoutePath(http[k].path));
      ClaimsTell(http[k], g, b, h);
      ClaimsAre(http, x);
      var j :| 0 <= j < |b.hosts| && b.hosts[j] == h;
      assert ClaimsOf(b)[j] == x;
    }
  }

  lemma HostsApartMore(init: seq<HttpBinding>, b: HttpBinding)
    ensures HostsApart(init + [b]) <==>
            && HostsApart(init)
            && (forall i, j :: 0 <= i < j < |b.hosts| ==> !SameClaim(b, b.hosts[i], b, b.hosts[j]))
            && forall k, g, h :: 0 <= k < |init| && g in init[k].hosts && h in b.hosts ==> !SameClaim(init[k], g, b, h)
  {
    hide SameClaim;
    var http, n := init + [b], |init|;
    assert http[n] == b;
    if HostsApart(http) {
      forall k, i, j | 0 <= k < n && 0 <= i < j < |init[k].hosts|
        ensures !SameClaim(init[k], init[k].hosts[i], init[k], init[k].hosts[j])
      {
        assert http[k] == init[k];
      }
      forall k, l, g, h | 0 <= k < l < n && g in init[k].hosts && h in init[l].hosts
        ensures !SameClaim(init[k], g, init[l], h)
      {
        assert http[k] == init[k] && http[l] == init[l];
      }
      forall k, g, h | 0 <= k < n && g in init[k].hosts && h in b.hosts ensures !SameClaim(init[k], g, b, h) {
        assert http[k] == init[k];
      }
    }
  }

  /** The claims compared by the scan are apart if and only if no two hosts mean the same requests. */
  lemma {:induction false} ClaimsApart(http: seq<HttpBinding>)
    ensures Distinct(Claims(http)) <==> HostsApart(http)
    decreases |http|
  {
    if http != [] {
      var init, b := Init(http), Last(http);
      Split(http);
      assert Claims(http) == Claims(init) + ClaimsOf(b);
      ClaimsApart(init);
      hide SameClaim, Distinct, Claims, ClaimsOf, HostsApart;
      DistinctConcat(Claims(init), ClaimsOf(b));
      OwnClaimsApart(b);
      OthersApart(init, b);
      HostsApartMore(init, b);
    }
  }

  lemma DistinctConcat<T>(a: seq<T>, b: seq<T>)
    ensures Distinct(a + b) <==> Distinct(a) && Distinct(b) && forall x :: x in a ==> x !in b
  {
    var s := a + b;
    if Distinct(s) {
      forall i, j | 0 <= i < j < |a| ensures a[i] != a[j] { assert s[i] != s[j]; }
      forall i, j | 0 <= i < j < |b| ensures b[i] != b[j] { assert s[|a| + i] != s[|a| + j]; }
      forall x | x in a ensures x !in b {
        var i :| 0 <= i < |a| && a[i] == x;
        forall j | 0 <= j < |b| ensures b[j] != x { assert s[i] != s[|a| + j]; }
      }
    } else {
      var i, j :| 0 <= i < j < |s| && s[i] == s[j];
      if i < |a| <= j {
        assert a[i] in a && b[j - |a|] in b;
      } else if j < |a| {
        assert a[i] == a[j];
      } else {
        assert b[i - |a|] == b[j - |a|];
      }
    }
  }

  /** The exclusive bindings in either order, and apart from the HTTP ones, have distinct names. */
  lemma NamesApart(c: ServerConfig)
    requires Distinct(AllNames(c))
    ensures Distinct(Names(c.tcp + c.udp + c.https))
    ensures forall h, b :: h in c.http && b in c.tcp + c.udp + c.https ==> h.name != b.name
  {
    var t, u, h, s := Names(c.tcp), Names(c.udp), HttpNames(c.http), Names(c.https);
    DistinctConcat(t + u + h, s);
    DistinctConcat(t + u, h);
    DistinctConcat(t + u, s);
    assert Names(c.tcp + c.udp + c.https) == t + u + s;
    forall x, b | x in c.http && b in c.tcp + c.udp + c.https ensures x.name != b.name {
      var i :| 0 <= i < |c.http| && c.http[i] == x;
      assert h[i] == x.name && x.name in h && x.name in t + u + h;
      if b in c.https {
        NameIn(c.https, b);
      } else if b in c.udp {
        NameIn(c.udp, b);
        assert b.name in t + u;
      } else {
        NameIn(c.tcp, b);
        assert b.name in t + u;
      }
    }
  }

  lemma NameIn(bindings: seq<Binding>, b: Binding)
    ensures b in bindings ==> b.name in Names(bindings)
  {
    if b in bindings {
      var i :| 0 <= i < |bindings| && bindings[i] == b;
      assert Names(bindings)[i] == b.name;
    }
  }

  lemma {:induction false} NoClashes(bindings: seq<Binding>)
    requires Distinct(Names(bindings))
    ensures Clashes(bindings) == [] <==> PortsApart(bindings)
    decreases |bindings|
  {
    if bindings != [] {
      var init, b := Init(bindings), Last(bindings);
      Split(bindings);
      assert Names(bindings) == Names(init) + [b.name];
      DistinctConcat(Names(init), [b.name]);
      NoClashes(init);
      OwnerOf(init, b.port);
      LastApart(init, b);
      assert b.name in [b.name];
      forall x | x in init ensures x.name != b.name { NameIn(init, x); }
    }
  }

  lemma LastApart(init: seq<Binding>, b: Binding)
    ensures PortsApart(init + [b]) <==> PortsApart(init) && (b.port == 0 || forall x :: x in init ==> x.port != b.port)
  {
    var all := init + [b];
    if PortsApart(all) {
      forall i, j | 0 <= i < j < |init| && init[i].port != 0 ensures init[i].port != init[j].port {
        assert all[i] == init[i] && all[j] == init[j];
      }
      if b.port != 0 {
        forall x | x in init ensures x.port != b.port {
          var i :| 0 <= i < |init| && init[i] == x;
          assert all[i] == x && all[|init|] == b;
        }
      }
    }
  }

  lemma {:induction false} NoHttpClashes(http: seq<HttpBinding>, exclusive: seq<Binding>)
    requires forall h, b :: h in http && b in exclusive ==> h.name != b.name
    ensures HttpClashes(http, exclusive) == [] <==>
            forall h, b :: h in http && b in exclusive && h.port != 0 ==> h.port != b.port
    decreases |http|
  {
    if http != [] {
      Split(http);
      NoHttpClashes(Init(http), exclusive);
      OwnerOf(exclusive, Last(http).port);
      assert Last(http) in http;
    }
  }

  /** The three scans over the configuration find nothing exactly when it is free of conflicts. */
  lemma ChecksAreExact(c: ServerConfig)
    ensures && Repeats(AllNames(c)) == []
            && Clashes(c.tcp + c.udp + c.https) == []
            && HttpClashes(c.http, c.https + c.tcp + c.udp) == []
            && Repeats(Claims(c.http)) == []
            <==> ConflictFree(c)
    ensures Repeats(Claims(c.http)) == [] <==> HostsApart(c.http)
  {
    ClaimsApart(c.http);
    NoRepeats(AllNames(c));
    NoRepeats(Claims(c.http));
    if Distinct(AllNames(c)) {
      NamesApart(c);
      NoClashes(c.tcp + c.udp + c.https);
      assert forall b :: b in c.https + c.tcp + c.udp <==> b in c.tcp + c.udp + c.https;
      NoHttpClashes(c.http, c.https + c.tcp + c.udp);
    }
  }

  method ValidateConflicts(c: ServerConfig) returns (clean: bool)
    ensures clean <==> ConflictFree(c)
  {
    var http, exclusive := ValidatePortConflicts(c);
    var routes := ValidateHTTPRouteConflicts(c.http);
    var names := DuplicateBindingNames(c);
    ChecksAreExact(c);
    clean := http == [] && exclusive == [] && routes == [] && names == [];
  }

  // What a valid configuration guarantees to the steps that follow.

  predicate Valid(c: ServerConfig) { FieldsValid(c) && ConflictFree(c) }

  /** The routes of one port, as they are published. */
  function PortRoutes(http: seq<HttpBinding>, port: int): seq<Route>
    decreases |http|
  {
    if http == [] then []
    else PortRoutes(Init(http), port) + if Last(http).port == port then RoutesOf(Last(http)) else []
  }

  function RoutesOf(b: HttpBinding): seq<Route> {
    seq(|b.hosts|, i requires 0 <= i < |b.hosts| => Route(b.name, b.hosts[i], b.path))
  }

  /** The claim a route of a port stands for. */
  function ClaimOf(port: int, r: Route): Claim { Claim(port, Lower(Trim(r.host)), RoutePath(r.path)) }

  function ClaimsAt(port: int, routes: seq<Route>): seq<Claim> {
    seq(|routes|, i requires 0 <= i < |routes| => ClaimOf(port, routes[i]))
  }

  lemma {:induction false} PortClaimsDistinct(http: seq<HttpBinding>, port: int)
    requires Distinct(Claims(http))
    ensures Distinct(ClaimsAt(port, PortRoutes(http, port)))
    ensures forall x :: x in ClaimsAt(port, PortRoutes(http, port)) ==> x in Claims(http)
    decreases |http|
  {
    if http != [] {
      var b := Last(http);
      DistinctConcat(Claims(Init(http)), ClaimsOf(b));
      PortClaimsDistinct(Init(http), port);
      if b.port == port {
        assert ClaimsAt(port, RoutesOf(b)) == ClaimsOf(b);
        assert ClaimsAt(port, PortRoutes(http, port)) == ClaimsAt(port, PortRoutes(Init(http), port)) + ClaimsOf(b);
        DistinctConcat(ClaimsAt(port, PortRoutes(Init(http), port)), ClaimsOf(b));
      } else {
        assert PortRoutes(http, port) == PortRoutes(Init(http), port);
      }
    }
  }

  lemma {:induction false} PortRoutesLegal(http: seq<HttpBinding>, port: int)
    requires forall b :: b in http ==> ValidName(b.name) && ValidHosts(b.hosts) && ValidPath(b.path)
    ensures Legal(PortRoutes(http, port))
    decreases |http|
  {
    if http != [] {
      var b := Last(http);
      PortRoutesLegal(Init(http), port);
      assert b in http;
      forall r | r in RoutesOf(b) ensures Normalize(r).Some? {
        assert r.host in b.hosts && Trim("") == "";
      }
    }
  }

  lemma LowerSpace(c: char)
    ensures IsSpace(LowerChar(c)) <==> IsSpace(c)
  {}

  lemma {:induction false} LowerTrimLeft(s: string)
    ensures Lower(TrimLeft(s)) == TrimLeft(Lower(s))
    decreases |s|
  {
    if s != "" {
      LowerSpace(s[0]);
      assert Lower(s)[1..] == Lower(s[1..]);
      LowerTrimLeft(s[1..]);
    }
  }

  lemma {:induction false} LowerTrimRight(s: string)
    ensures Lower(TrimRight(s)) == TrimRight(Lower(s))
    decreases |s|
  {
    if s != "" {
      LowerSpace(Last(s));
      assert Init(Lower(s)) == Lower(Init(s)) && Last(Lower(s)) == LowerChar(Last(s));
      LowerTrimRight(Init(s));
    }
  }

  /** Hosts the router takes for the same, validation takes for the same. */
  lemma SameHost(a: string, b: string)
    requires Lower(a) == Lower(b)
    ensures Lower(Trim(a)) == Lower(Trim(b))
  {
    LowerTrimLeft(a);
    LowerTrimLeft(b);
    LowerTrimRight(TrimLeft(a));
    LowerTrimRight(TrimLeft(b));
  }

  /** The host of `r` runs on, behind a NUL, into the path of `s`. */
  predicate Runs(r: Route, s: Route) {
    var h, g := Lower(r.host), Lower(s.host);
    g + [NUL] <= h && RoutePath(s.path) == h[|g| + 1..] + [NUL] + RoutePath(r.path)
  }

  lemma KeyOf(r: Route)
    requires Normalize(r).Some?
    ensures RouteKey(Normalize(r).value) == Lower(r.host) + [NUL] + RoutePath(r.path)
  {}

  /** Joined by a NUL, a longer and a shorter host can make the same key in just one way. */
  lemma SameJoin(h: string, p: string, g: string, q: string)
    requires |h| > |g|
    ensures h + [NUL] + p == g + [NUL] + q <==> g + [NUL] <= h && q == h[|g| + 1..] + [NUL] + p
  {
    var left, right := h + [NUL] + p, g + [NUL] + q;
    if left == right {
      assert g + [NUL] == right[..|g| + 1] == left[..|g| + 1] == h[..|g| + 1];
      assert q == right[|g| + 1..] == left[|g| + 1..] == h[|g| + 1..] + [NUL] + p;
    }
    if g + [NUL] <= h && q == h[|g| + 1..] + [NUL] + p {
      assert h == g + [NUL] + h[|g| + 1..];
    }
  }

  lemma EvenJoin(h: string, p: string, g: string, q: string)
    requires |h| == |g| && h + [NUL] + p == g + [NUL] + q
    ensures h == g && p == q
  {
    assert (h + [NUL] + p)[..|h|] == h && (g + [NUL] + q)[..|h|] == g;
    assert (h + [NUL] + p)[|h| + 1..] == p && (g + [NUL] + q)[|h| + 1..] == q;
  }

  lemma SameKeyIff(port: int, r: Route, s: Route)
    requires Normalize(r).Some? && Normalize(s).Some? && ClaimOf(port, r) != ClaimOf(port, s)
    ensures RouteKey(Normalize(r).value) == RouteKey(Normalize(s).value) <==> Runs(r, s) || Runs(s, r)
  {
    var h, g, p, q := Lower(r.host), Lower(s.host), RoutePath(r.path), RoutePath(s.path);
    KeyOf(r);
    KeyOf(s);
    hide Normalize, RouteKey, RoutePath, Lower, Trim;
    if |h| > |g| {
      SameJoin(h, p, g, q);
    } else if |g| > |h| {
      SameJoin(g, q, h, p);
    } else {
      if h == g { SameHost(r.host, s.host); }
      if h + [NUL] + p == g + [NUL] + q { EvenJoin(h, p, g, q); }
    }
  }

  /** Of a valid configuration the table of every port can be built, exactly unless a host of the
      port runs on behind a NUL into the path of another of its routes. */
  lemma RouterBuilds(c: ServerConfig, port: int)
    requires Valid(c)
    ensures Build(PortRoutes(c.http, port)).Some? <==>
            forall r, s :: r in PortRoutes(c.http, port) && s in PortRoutes(c.http, port) ==> !Runs(r, s)
  {
    var routes := PortRoutes(c.http, port);
    PortRoutesLegal(c.http, port);
    PortClaimsDistinct(c.http, port);
    if NoConflict(Normalized(routes)) {
      forall r, s | r in routes && s in routes ensures !Runs(r, s) {
        var i :| 0 <= i < |routes| && routes[i] == r;
        var j :| 0 <= j < |routes| && routes[j] == s;
        if i != j {
          ClashAt(port, routes, if i < j then i else j, if i < j then j else i);
        }
      }
    } else {
      var i, j :| 0 <= i < j < |routes| && RouteKey(Normalized(routes)[i]) == RouteKey(Normalized(routes)[j]);
      ClashAt(port, routes, i, j);
      assert routes[i] in routes && routes[j] in routes;
    }
  }

  lemma ClashAt(port: int, routes: seq<Route>, i: nat, j: nat)
    requires i < j < |routes| && Legal(routes) && Distinct(ClaimsAt(port, routes))
    ensures RouteKey(Normalized(routes)[i]) == RouteKey(Normalized(routes)[j]) <==>
            Runs(routes[i], routes[j]) || Runs(routes[j], routes[i])
  {
    assert routes[i] in routes && routes[j] in routes;
    assert ClaimsAt(port, routes)[i] != ClaimsAt(port, routes)[j];
    SameKeyIff(port, routes[i], routes[j]);
  }

  /** So hosts without NUL are enough. */
  lemma RouterBuildsWithoutNul(c: ServerConfig, port: int)
    requires Valid(c)
    requires forall b, h :: b in c.http && h in b.hosts ==> NUL !in h
    ensures Build(PortRoutes(c.http, port)).Some?
  {
    var routes := PortRoutes(c.http, port);
    PortHosts(c.http, port);
    forall r, s | r in routes && s in routes ensures !Runs(r, s) {
      var h, g := Lower(r.host), Lower(s.host);
      if g + [NUL] <= h {
        NulInside(g, r.host);
        assert false;
      }
    }
    RouterBuilds(c, port);
  }

  lemma NulInside(g: string, host: string)
    requires g + [NUL] <= Lower(host)
    ensures NUL in host
  {
    assert Lower(host)[|g|] == (g + [NUL])[|g|];
    assert host[|g|] in host;
  }

  lemma {:induction false} PortHosts(http: seq<HttpBinding>, port: int)
    ensures forall r :: r in PortRoutes(http, port) ==> exists b :: b in http && r.host in b.hosts
    decreases |http|
  {
    if http != [] {
      PortHosts(Init(http), port);
      Split(http);
      assert Last(http) in http;
      forall r | r in RoutesOf(Last(http)) ensures r.host in Last(http).hosts {}
    }
  }

  const NUL_HOST := HttpBinding("x", 80, ["a\0/b"], "/c")
  const NUL_PATH := HttpBinding("y", 80, ["a"], "/b\0/c")
  const NUL_CONFIG := ServerConfig([], [], [NUL_HOST, NUL_PATH], [])

  /** A host with a NUL passes validation and leaves its port without a table. */
  lemma NulBreaksRouter()
    ensures Valid(NUL_CONFIG) && Build(PortRoutes(NUL_CONFIG.http, 80)).None?
  {
    NulConfigValid();
    NulRoutes();
    NulRuns();
    hide Valid, PortRoutes, Build, Runs;
    RouterBuilds(NUL_CONFIG, 80);
  }

  const NUL_FIRST := Route("x", "a\0/b", "/c")
  const NUL_SECOND := Route("y", "a", "/b\0/c")

  lemma NulRoutes()
    ensures PortRoutes(NUL_CONFIG.http, 80) == [NUL_FIRST, NUL_SECOND]
  {
    assert Init(NUL_CONFIG.http) == [NUL_HOST] && Init([NUL_HOST]) == [];
    assert RoutesOf(NUL_HOST) == [NUL_FIRST] && RoutesOf(NUL_PATH) == [NUL_SECOND];
    assert PortRoutes([NUL_HOST], 80) == [NUL_FIRST];
  }

  lemma NulRuns()
    ensures Runs(NUL_FIRST, NUL_SECOND)
  {
    assert Lower("a\0/b") == "a\0/b" && Lower("a") == "a";
    assert "/b\0/c" == "a\0/b"[2..] + [NUL] + "/c";
  }

  lemma NulConfigValid()
    ensures Valid(NUL_CONFIG)
  {
    NulFields();
    NulClaims();
    assert AllNames(NUL_CONFIG) == ["x", "y"];
  }

  lemma NulFields()
    ensures FieldsValid(NUL_CONFIG)
  {
    NoTrim("a\0/b");
    NoTrim("a");
    assert ValidHosts(NUL_HOST.hosts) && ValidHosts(NUL_PATH.hosts);
    assert ValidPath(NUL_HOST.path) && ValidPath(NUL_PATH.path);
  }

  lemma NulClaims()
    ensures Distinct(Claims(NUL_CONFIG.http))
  {
    assert Init(NUL_CONFIG.http) == [NUL_HOST] && Init([NUL_HOST]) == [];
    assert Claims([NUL_HOST]) == ClaimsOf(NUL_HOST);
    assert Claims(NUL_CONFIG.http) == ClaimsOf(NUL_HOST) + ClaimsOf(NUL_PATH);
    assert ClaimsOf(NUL_HOST)[0].path == "/c" && ClaimsOf(NUL_PATH)[0].path[1] == 'b';
  }

  lemma NoTrim(s: string)
    requires s != "" && !IsSpace(s[0]) && !IsSpace(Last(s))
    ensures Trim(s) == s
  {}

  /** Every entry of a valid configuration has a key of its own. */
  lemma EntryKeysDistinct(c: ServerConfig, name: string, p: int, q: int)
    requires Valid(c) && name in AllNames(c) && ValidPort(p) && ValidPort(q)
    ensures name != EntryName(p) && EntryPort(name) == None
    ensures EntryPort(EntryName(p)) == Some(p) && (EntryName(p) == EntryName(q) ==> p == q)
  {
    EntryPortOfName(p);
    EntryPortOfName(q);
    NameHasNoColon(c, name);
    ColonFreeIsNoEntry(name, p);
  }

  lemma NameHasNoColon(c: ServerConfig, name: string)
    requires FieldsValid(c) && name in AllNames(c)
    ensures ':' !in name
  {
    var all := c.tcp + c.udp + c.https;
    if name in HttpNames(c.http) {
      var i :| 0 <= i < |c.http| && HttpNames(c.http)[i] == name;
      assert c.http[i] in c.http;
    } else {
      assert AllNames(c) == Names(c.tcp) + Names(c.udp) + HttpNames(c.http) + Names(c.https);
      assert name in Names(c.tcp) + Names(c.udp) + Names(c.https);
      assert Names(all) == Names(c.tcp) + Names(c.udp) + Names(c.https);
      var i :| 0 <= i < |all| && Names(all)[i] == name;
      assert all[i] in all;
    }
  }
}
