/** The account widget of the top bar: the network name, which of its two views it
    shows, the link to the account's profile and the status line. */
module AccountModule {
  import opened Js

  /** `getNetworkName(networkId)` */
  function NetworkName(networkId: string): (name: string)
    ensures networkId == "main" ==> name == "Mainnet"
    ensures networkId == "rinkeby" ==> name == "Rinkeby"
    ensures networkId != "main" && networkId != "rinkeby" ==> name == networkId
  {
    if networkId == "main" then "Mainnet"
    else if networkId == "rinkeby" then "Rinkeby"
    else networkId
  }

  /** The mapping hides no network: the name is empty exactly when the id is, and two
      ids other than the two renamed ones keep distinct names. */
  lemma NetworkNameProperties(a: string, b: string)
    ensures NetworkName(a) == "" <==> a == ""
    ensures a !in {"main", "rinkeby"} && b !in {"main", "rinkeby"} ==>
      (NetworkName(a) == NetworkName(b) <==> a == b)
  {
  }

  datatype AccountView = ConnectedMode | NonConnectedMode

  function View(connected: bool): (v: AccountView)
    ensures v == ConnectedMode <==> connected
  {
    if connected then ConnectedMode else NonConnectedMode
  }

  /** `s.indexOf(c)`: the first index of `c`, or -1. */
  function IndexOf(s: string, c: char): (i: int)
    ensures -1 <= i < |s|
    ensures i == -1 <==> c !in s
    ensures i >= 0 ==> s[i] == c && c !in s[..i]
    decreases |s|
  {
    if s == [] then -1
    else if s[0] == c then 0
    else
      var i := IndexOf(s[1..], c);
      if i == -1 then -1
      else
        assert s[..i + 1] == [s[0]] + s[1..][..i];
        i + 1
  }

  /** `s.substr(0, length)`: a negative length is treated as 0, a long one as the rest. */
  function SubstrFromStart(s: string, length: int): (r: string)
    ensures |r| == if length <= 0 then 0 else if length >= |s| then |s| else length
    ensures r == s[..|r|]
  {
    if length <= 0 then "" else if length >= |s| then s else s[..length]
  }

  /** The part of the organisation's `dao` name before its first '.', or "" if none. */
  function DaoSegment(dao: string): (seg: string)
    ensures '.' in dao ==> |seg| < |dao| && dao[..|seg| + 1] == seg + "." && '.' !in seg
    ensures '.' !in dao ==> seg == ""
  {
    SubstrFromStart(dao, IndexOf(dao, '.'))
  }

  /** The connected view's link: `${origin}#/${segment}/profile/${address}`. */
  function ProfileHref(origin: string, dao: string, address: string): (href: string)
  {
    origin + "#/" + DaoSegment(dao) + "/profile/" + address
  }

  lemma {:induction false} IndexOfFirstDot(name: string, rest: string)
    requires '.' !in name
    ensures IndexOf(name + "." + rest, '.') == |name|
    decreases |name|
  {
    if name != [] {
      assert (name + "." + rest)[1..] == name[1..] + "." + rest;
      IndexOfFirstDot(name[1..], rest);
    }
  }

  /** The link for a name such as `acme.aragonid.eth` names the organisation `acme`;
      a name without a '.' gives an empty segment. */
  lemma ProfileHrefSegment(origin: string, name: string, rest: string, address: string)
    requires '.' !in name
    ensures ProfileHref(origin, name + "." + rest, address) == origin + "#/" + name + "/profile/" + address
    ensures ProfileHref(origin, name, address) == origin + "#//profile/" + address
  {
    IndexOfFirstDot(name, rest);
    assert (name + "." + rest)[..|name|] == name;
  }

  /** `Connected {networkName ? `to ${networkName}` : ''}` */
  function StatusText(networkName: string): (t: string)
    ensures networkName != "" ==> t == "Connected to " + networkName
    ensures networkName == "" ==> t == "Connected "
  {
    "Connected " + (if networkName != "" then "to " + networkName else "")
  }

  /** The status names the network exactly when the wallet reports a network id. */
  lemma StatusNamesNetwork(networkId: string)
    ensures (StatusText(NetworkName(networkId)) == "Connected ") <==> networkId == ""
  {
    NetworkNameProperties(networkId, networkId);
  }

  /** The account label when truthy, else the shortened address. */
  function DisplayedLabel(accountLabel: Value, address: string, shortenAddress: string -> string): (shown: string)
    ensures Truthy(accountLabel) ==> shown == ToStr(accountLabel)
    ensures !Truthy(accountLabel) ==> shown == shortenAddress(address)
  {
    if Truthy(accountLabel) then ToStr(accountLabel) else shortenAddress(address)
  }
}
