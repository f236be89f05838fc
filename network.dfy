/** `processDNS`: the page that shows the IPv4 addresses a hostname resolves
    to, one per line. The lookup itself is an input. */
module Network {
  import opened Common

  const NEWLINE := '\n'

  /** Every address followed by a newline, in order. */
  function AddressList(addresses: seq<string>): string
  {
    if addresses == [] then "" else addresses[0] + [NEWLINE] + AddressList(addresses[1..])
  }

  lemma {:induction false} AddressListAppend(addresses: seq<string>, a: string)
    ensures AddressList(addresses + [a]) == AddressList(addresses) + a + [NEWLINE]
  {
    if addresses != [] {
      assert (addresses + [a])[1..] == addresses[1..] + [a];
      AddressListAppend(addresses[1..], a);
    } else {
      assert [a][1..] == [];
    }
  }

  /** The loop of `processDNS`: `addrList += addresses[i] + '\n'`. */
  method FormatAddresses(addresses: seq<string>) returns (addrList: string)
    ensures addrList == AddressList(addresses)
  {
    addrList := "";
    var i := 0;
    while i < |addresses|
      invariant 0 <= i <= |addresses|
      invariant addrList == AddressList(addresses[..i])
    {
      AddressListAppend(addresses[..i], addresses[i]);
      assert addresses[..i + 1] == addresses[..i] + [addresses[i]];
      addrList := addrList + addresses[i] + [NEWLINE];
      i := i + 1;
    }
    assert addresses[..i] == addresses;
  }

  /** The position of the first newline in `s`. */
  function FirstNewline(s: string): (k: nat)
    requires NEWLINE in s
    ensures k < |s| && s[k] == NEWLINE
    ensures NEWLINE !in s[..k]
  {
    if s[0] == NEWLINE then 0
    else
      var k := 1 + FirstNewline(s[1..]);
      assert s[..k] == [s[0]] + s[1..][..k - 1];
      k
  }

  /** Reading the page back: the lines of a text, each ended by a newline
      except perhaps the last. */
  function Lines(s: string): seq<string>
    decreases |s|
  {
    if s == "" then []
    else if NEWLINE !in s then [s]
    else
      var k := FirstNewline(s);
      [s[..k]] + Lines(s[k + 1..])
  }

  predicate SingleLine(a: string)
  {
    NEWLINE !in a
  }

  /** Addresses never hold a newline, so the page lists exactly the resolved
      addresses, in the order the resolver gave them. */
  lemma {:induction false} LinesOfAddressList(addresses: seq<string>)
    requires forall i :: 0 <= i < |addresses| ==> SingleLine(addresses[i])
    ensures Lines(AddressList(addresses)) == addresses
  {
    if addresses != [] {
      var a := addresses[0];
      var rest := AddressList(addresses[1..]);
      var s := AddressList(addresses);
      assert s == a + [NEWLINE] + rest;
      assert s[|a|] == NEWLINE;
      var k := FirstNewline(s);
      assert k == |a|;
      assert s[..k] == a;
      assert s[k + 1..] == rest;
      LinesOfAddressList(addresses[1..]);
    }
  }

  /** `processDNS(hostname, response)` once `dns.resolve4` has answered. */
  method ProcessDns(hostname: string, resolved: Reply<seq<string>>) returns (page: Response)
    ensures resolved.Err? ==> page == NetworkPage(resolved.detail, hostname)
    ensures resolved.Ok? ==> page == NetworkPage(AddressList(resolved.value), hostname)
    ensures resolved.Ok? && (forall i :: 0 <= i < |resolved.value| ==> SingleLine(resolved.value[i])) ==>
      Lines(page.dnsResponse) == resolved.value
  {
    if resolved.Err? {
      page := NetworkPage(resolved.detail, hostname);
    } else {
      var addrList := FormatAddresses(resolved.value);
      if forall i :: 0 <= i < |resolved.value| ==> SingleLine(resolved.value[i]) {
        LinesOfAddressList(resolved.value);
      }
      page := NetworkPage(addrList, hostname);
    }
  }
}
