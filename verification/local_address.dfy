/** `getLocalIP` of vite.config.js: the development server picks the LAN
    address it advertises to phones. Virtual adapters are skipped, only
    external IPv4 addresses count, the first address of a "Wi-Fi" adapter
    wins at once, and otherwise the last candidate seen is kept, with
    "localhost" when there is none. */
module LocalAddress {
  import Text

  /** One address entry of `os.networkInterfaces()[name]`. */
  datatype Iface = Iface(family: string, internal: bool, address: string)

  /** One adapter, under its name, in `Object.keys` order. */
  datatype Interface = Interface(name: string, addrs: seq<Iface>)

  const Fallback := "localhost"

  /** Adapters whose lower-cased name mentions a virtual, VMware, vEthernet
      or WSL adapter are skipped. */
  predicate Ignored(name: string) {
    var lower := Text.ToLower(name);
    Text.Contains(lower, "virtual") || Text.Contains(lower, "vmware")
    || Text.Contains(lower, "vethernet") || Text.Contains(lower, "wsl")
  }

  /** An external IPv4 address. */
  predicate Candidate(a: Iface) {
    a.family == "IPv4" && !a.internal
  }

  /** An adapter whose lower-cased name mentions "wi-fi". */
  predicate IsWifi(name: string) {
    Text.Contains(Text.ToLower(name), "wi-fi")
  }

  /** The candidate addresses of one adapter, each tagged with whether the
      adapter is a Wi-Fi one. */
  function AdapterCands(wifi: bool, addrs: seq<Iface>): seq<(bool, string)>
    decreases |addrs|
  {
    if addrs == [] then []
    else (if Candidate(addrs[0]) then [(wifi, addrs[0].address)] else []) + AdapterCands(wifi, addrs[1..])
  }

  /** The candidates of all adapters that are not skipped, in visiting order. */
  function Cands(ifs: seq<Interface>): seq<(bool, string)>
    decreases |ifs|
  {
    if ifs == [] then []
    else
      (if Ignored(ifs[0].name) then [] else AdapterCands(IsWifi(ifs[0].name), ifs[0].addrs))
      + Cands(ifs[1..])
  }

  /** Scanning candidates with a current best: a Wi-Fi candidate ends the
      scan, any other replaces the best. */
  function Pick(cs: seq<(bool, string)>, best: string): string
    decreases |cs|
  {
    if cs == [] then best
    else if cs[0].0 then cs[0].1
    else Pick(cs[1..], cs[0].1)
  }

  /** The address the helper settles on. */
  function Chosen(ifs: seq<Interface>): string {
    Pick(Cands(ifs), Fallback)
  }

  /** The first Wi-Fi candidate, when there is one, is the one picked. */
  lemma {:induction false} PickFirstWifi(cs: seq<(bool, string)>, best: string, k: nat)
    requires k < |cs| && cs[k].0
    ensures exists j ::
              0 <= j <= k && cs[j].0 && Pick(cs, best) == cs[j].1 && forall i :: 0 <= i < j ==> !cs[i].0
    decreases |cs|
  {
    if cs[0].0 {
      assert Pick(cs, best) == cs[0].1;
    } else {
      PickFirstWifi(cs[1..], cs[0].1, k - 1);
      var j :| 0 <= j <= k - 1 && cs[1..][j].0 && Pick(cs[1..], cs[0].1) == cs[1..][j].1 &&
        forall i :: 0 <= i < j ==> !cs[1..][i].0;
      assert forall i :: 0 <= i < j + 1 ==> !cs[i].0 by {
        forall i | 0 <= i < j + 1 ensures !cs[i].0 {
          if i > 0 { assert cs[i] == cs[1..][i - 1]; }
        }
      }
      assert cs[j + 1] == cs[1..][j];
    }
  }

  /** With no Wi-Fi candidate the last candidate is picked, or the starting
      best when there is none. */
  lemma {:induction false} PickLastWithoutWifi(cs: seq<(bool, string)>, best: string)
    requires forall i :: 0 <= i < |cs| ==> !cs[i].0
    ensures Pick(cs, best) == if cs == [] then best else cs[|cs| - 1].1
    decreases |cs|
  {
    if cs != [] {
      assert forall i :: 0 <= i < |cs| - 1 ==> !cs[1..][i].0 by {
        forall i | 0 <= i < |cs| - 1 ensures !cs[1..][i].0 {
          assert cs[1..][i] == cs[i + 1];
        }
      }
      PickLastWithoutWifi(cs[1..], cs[0].1);
    }
  }

  /** Every candidate of an adapter is one of its external IPv4 addresses,
      tagged with the adapter's Wi-Fi flag. */
  lemma {:induction false} AdapterCandsSound(wifi: bool, addrs: seq<Iface>, c: (bool, string))
    requires c in AdapterCands(wifi, addrs)
    ensures c.0 == wifi
    ensures exists k :: 0 <= k < |addrs| && Candidate(addrs[k]) && addrs[k].address == c.1
    decreases |addrs|
  {
    if Candidate(addrs[0]) && c == (wifi, addrs[0].address) {
    } else {
      AdapterCandsSound(wifi, addrs[1..], c);
      var k :| 0 <= k < |addrs[1..]| && Candidate(addrs[1..][k]) && addrs[1..][k].address == c.1;
      assert addrs[k + 1] == addrs[1..][k];
    }
  }

  /** Every external IPv4 address of an adapter is among its candidates. */
  lemma {:induction false} AdapterCandsComplete(wifi: bool, addrs: seq<Iface>, k: nat)
    requires k < |addrs| && Candidate(addrs[k])
    ensures (wifi, addrs[k].address) in AdapterCands(wifi, addrs)
    decreases |addrs|
  {
    if k > 0 {
      AdapterCandsComplete(wifi, addrs[1..], k - 1);
      assert addrs[1..][k - 1] == addrs[k];
    }
  }

  /** Every candidate comes from an adapter that is not skipped. */
  lemma {:induction false} CandsSound(ifs: seq<Interface>, c: (bool, string))
    requires c in Cands(ifs)
    ensures exists i ::
              0 <= i < |ifs| && !Ignored(ifs[i].name) && c in AdapterCands(IsWifi(ifs[i].name), ifs[i].addrs)
    decreases |ifs|
  {
    if !Ignored(ifs[0].name) && c in AdapterCands(IsWifi(ifs[0].name), ifs[0].addrs) {
    } else {
      CandsSound(ifs[1..], c);
      var i :| 0 <= i < |ifs[1..]| && !Ignored(ifs[1..][i].name) &&
        c in AdapterCands(IsWifi(ifs[1..][i].name), ifs[1..][i].addrs);
      assert ifs[i + 1] == ifs[1..][i];
    }
  }

  /** Every external IPv4 address of an adapter that is not skipped is a
      candidate. */
  lemma {:induction false} CandsComplete(ifs: seq<Interface>, i: nat, k: nat)
    requires i < |ifs| && !Ignored(ifs[i].name)
    requires k < |ifs[i].addrs| && Candidate(ifs[i].addrs[k])
    ensures (IsWifi(ifs[i].name), ifs[i].addrs[k].address) in Cands(ifs)
    decreases |ifs|
  {
    if i == 0 {
      AdapterCandsComplete(IsWifi(ifs[0].name), ifs[0].addrs, k);
    } else {
      assert ifs[1..][i - 1] == ifs[i];
      CandsComplete(ifs[1..], i - 1, k);
    }
  }

  /** The chosen address is "localhost" or an external IPv4 address of an
      adapter that is not skipped. */
  lemma ChosenIsExternalAddress(ifs: seq<Interface>)
    ensures Chosen(ifs) == Fallback ||
      exists i, k :: 0 <= i < |ifs| && 0 <= k < |ifs[i].addrs| && !Ignored(ifs[i].name) &&
        Candidate(ifs[i].addrs[k]) && ifs[i].addrs[k].address == Chosen(ifs)
  {
    var cs := Cands(ifs);
    if exists k :: 0 <= k < |cs| && cs[k].0 {
      var k :| 0 <= k < |cs| && cs[k].0;
      PickFirstWifi(cs, Fallback, k);
    } else {
      PickLastWithoutWifi(cs, Fallback);
    }
    if Chosen(ifs) != Fallback {
      var j :| 0 <= j < |cs| && cs[j].1 == Chosen(ifs);
      CandsSound(ifs, cs[j]);
      var i :| 0 <= i < |ifs| && !Ignored(ifs[i].name) &&
        cs[j] in AdapterCands(IsWifi(ifs[i].name), ifs[i].addrs);
      AdapterCandsSound(IsWifi(ifs[i].name), ifs[i].addrs, cs[j]);
    }
  }

  /** When some Wi-Fi adapter that is not skipped has an external IPv4
      address, a Wi-Fi address is chosen. */
  lemma WifiPreferred(ifs: seq<Interface>, i: nat, k: nat)
    requires i < |ifs| && !Ignored(ifs[i].name) && IsWifi(ifs[i].name)
    requires k < |ifs[i].addrs| && Candidate(ifs[i].addrs[k])
    ensures (true, Chosen(ifs)) in Cands(ifs)
  {
    CandsComplete(ifs, i, k);
    var cs := Cands(ifs);
    var n :| 0 <= n < |cs| && cs[n] == (true, ifs[i].addrs[k].address);
    PickFirstWifi(cs, Fallback, n);
  }

  /** With no external IPv4 address on any adapter that is not skipped, the
      helper falls back to "localhost". */
  lemma NoCandidateMeansLocalhost(ifs: seq<Interface>)
    requires forall i, k :: 0 <= i < |ifs| && 0 <= k < |ifs[i].addrs| && !Ignored(ifs[i].name) ==>
      !Candidate(ifs[i].addrs[k])
    ensures Chosen(ifs) == Fallback
  {
    var cs := Cands(ifs);
    if cs != [] {
      CandsSound(ifs, cs[0]);
      var i :| 0 <= i < |ifs| && !Ignored(ifs[i].name) &&
        cs[0] in AdapterCands(IsWifi(ifs[i].name), ifs[i].addrs);
      AdapterCandsSound(IsWifi(ifs[i].name), ifs[i].addrs, cs[0]);
      assert false;
    }
  }

  /** One adapter's step of the outer loop. */
  lemma CandsAt(ifs: seq<Interface>, i: nat)
    requires i < |ifs|
    ensures Cands(ifs[i..]) ==
      (if Ignored(ifs[i].name) then [] else AdapterCands(IsWifi(ifs[i].name), ifs[i].addrs)) + Cands(ifs[i + 1..])
  {
    assert ifs[i..][0] == ifs[i] && ifs[i..][1..] == ifs[i + 1..];
  }

  /** One address's step of the inner loop. */
  lemma AdapterCandsAt(wifi: bool, addrs: seq<Iface>, j: nat)
    requires j < |addrs|
    ensures AdapterCands(wifi, addrs[j..]) ==
      (if Candidate(addrs[j]) then [(wifi, addrs[j].address)] else []) + AdapterCands(wifi, addrs[j + 1..])
  {
    assert addrs[j..][0] == addrs[j] && addrs[j..][1..] == addrs[j + 1..];
  }

  /** Scanning one more candidate. */
  lemma PickCons(c: (bool, string), tail: seq<(bool, string)>, best: string)
    ensures Pick([c] + tail, best) == if c.0 then c.1 else Pick(tail, c.1)
  {
    assert ([c] + tail)[0] == c && ([c] + tail)[1..] == tail;
  }

  /** The inner loop of `getLocalIP` over one adapter's addresses: stops at
      the first candidate of a Wi-Fi adapter, otherwise leaves the last
      candidate in `best`. Scanning the adapter and then the rest gives the
      same answer as scanning both at once. */
  method ScanAdapter(wifi: bool, addrs: seq<Iface>, bestIn: string, ghost rest: seq<(bool, string)>)
    returns (found: bool, best: string)
    ensures Pick(AdapterCands(wifi, addrs) + rest, bestIn) == if found then best else Pick(rest, best)
    ensures found ==> wifi
  {
    best := bestIn;
    found := false;
    var j := 0;
    assert addrs[0..] == addrs;
    while j < |addrs|
      invariant 0 <= j <= |addrs|
      invariant Pick(AdapterCands(wifi, addrs) + rest, bestIn) == Pick(AdapterCands(wifi, addrs[j..]) + rest, best)
    {
      AdapterCandsAt(wifi, addrs, j);
      var iface := addrs[j];
      if Candidate(iface) {
        var tail := AdapterCands(wifi, addrs[j + 1..]) + rest;
        assert AdapterCands(wifi, addrs[j..]) + rest == [(wifi, iface.address)] + tail;
        PickCons((wifi, iface.address), tail, best);
        if wifi {
          return true, iface.address;
        }
        best := iface.address;
      } else {
        assert AdapterCands(wifi, addrs[j..]) == AdapterCands(wifi, addrs[j + 1..]);
      }
      j := j + 1;
    }
    assert AdapterCands(wifi, addrs[j..]) + rest == rest;
  }

  /** `getLocalIP`: adapters in order, skipping virtual ones. */
  method GetLocalIP(ifs: seq<Interface>) returns (ip: string)
    ensures ip == Chosen(ifs)
  {
    var bestMatch := Fallback;
    var i := 0;
    assert ifs[0..] == ifs;
    while i < |ifs|
      invariant 0 <= i <= |ifs|
      invariant Pick(Cands(ifs[i..]), bestMatch) == Chosen(ifs)
    {
      CandsAt(ifs, i);
      var name := ifs[i].name;
      if Ignored(name) {
        assert Cands(ifs[i..]) == Cands(ifs[i + 1..]);
      } else {
        var found, addr := ScanAdapter(IsWifi(name), ifs[i].addrs, bestMatch, Cands(ifs[i + 1..]));
        if found {
          return addr;
        }
        bestMatch := addr;
      }
      i := i + 1;
    }
    assert ifs[i..] == [];
    ip := bestMatch;
  }
}
