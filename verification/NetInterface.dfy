// The network interfaces a NetworkInterfaces worker finds, and the filter its
// onCall applies.
module NetInterface {

  datatype Family = UNKNOWN | ANY | IP | IPv4 | IPv6

  datatype NetworkInterface = NetworkInterface(ip: string, name: string, family: Family)

  // The condition in NetworkInterfaces::onCall.
  predicate Passes(filter: Family, nif: NetworkInterface) {
    filter == ANY || nif.family == filter ||
    (filter == IP && (nif.family == IPv4 || nif.family == IPv6))
  }

  function Filtered(filter: Family, list: seq<NetworkInterface>): seq<NetworkInterface> {
    if list == [] then []
    else
      var last := list[|list| - 1];
      Filtered(filter, list[..|list| - 1]) + (if Passes(filter, last) then [last] else [])
  }

  // The members of the list that belong to one of the families, in order.
  function OfFamilies(list: seq<NetworkInterface>, families: set<Family>): seq<NetworkInterface> {
    if list == [] then []
    else
      var rest := OfFamilies(list[1..], families);
      if list[0].family in families then [list[0]] + rest else rest
  }

  lemma {:induction false} OfFamiliesConcat(a: seq<NetworkInterface>, b: seq<NetworkInterface>, families: set<Family>)
    ensures OfFamilies(a + b, families) == OfFamilies(a, families) + OfFamilies(b, families)
  {
    if a == [] {
      assert a + b == b;
    } else {
      assert (a + b)[1..] == a[1..] + b;
      OfFamiliesConcat(a[1..], b, families);
    }
  }

  // Which families a filter lets through: ANY all of them, IP both versions
  // of IP and what is only known to be IP, any other only itself.
  lemma {:induction false} FilteredIs(filter: Family, list: seq<NetworkInterface>)
    ensures filter == ANY ==> Filtered(filter, list) == list
    ensures filter == IP ==> Filtered(filter, list) == OfFamilies(list, {IPv4, IPv6, IP})
    ensures filter != ANY && filter != IP ==> Filtered(filter, list) == OfFamilies(list, {filter})
  {
    if list != [] {
      var init, last := list[..|list| - 1], list[|list| - 1];
      var families := if filter == IP then {IPv4, IPv6, IP} else {filter};
      FilteredIs(filter, init);
      assert list == init + [last];
      OfFamiliesConcat(init, [last], families);
      assert OfFamilies([last], families) == if last.family in families then [last] else [];
    }
  }
}
