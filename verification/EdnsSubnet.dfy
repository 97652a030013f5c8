/** The client subnet option: finding, setting and removing it in a message's extra records,
    and the subnet a cache key names for it. */
module EdnsSubnet {
  import opened Basics

  const SUBNET_CODE := 8

  /** An EDNS0 option. An option that is not decoded as a subnet may still carry its code. */
  datatype Edns =
    | Subnet(family: nat, netmask: nat, scope: nat, octets: seq<nat>)
    | OtherOption(code: nat, data: seq<int>)

  predicate HasSubnetCode(option: Edns) {
    option.Subnet? || option.code == SUBNET_CODE
  }

  /** A record of the extra section, by value. */
  datatype RecordValue =
    | OptValue(udpSize: nat, ttl: nat, options: seq<Edns>)
    | PlainValue(rrtype: nat, data: seq<int>)

  // ---- addresses ----

  function BitLength(a: Address): nat {
    if a.V4? then 32 else 128
  }

  predicate ValidAddress(a: Address) {
    |a.octets| == (if a.V4? then 4 else 16) && forall i :: 0 <= i < |a.octets| ==> a.octets[i] < 256
  }

  predicate ValidPrefix(p: Prefix) {
    ValidAddress(p.address) && p.bits <= BitLength(p.address)
  }

  predicate Is4In6(a: Address) {
    && a.V6? && |a.octets| == 16
    && a.octets[..10] == [0, 0, 0, 0, 0, 0, 0, 0, 0, 0] && a.octets[10] == 255 && a.octets[11] == 255
  }

  function AddressFromOctets(octets: seq<nat>): Option<Address> {
    if |octets| == 4 then Some(V4(octets)) else if |octets| == 16 then Some(V6(octets)) else None
  }

  function Unmap(a: Address): Address {
    if Is4In6(a) then V4(a.octets[12..]) else a
  }

  /** netip.PrefixFrom; None when the bits do not fit the address. */
  function PrefixFrom(a: Address, bits: nat): Option<Prefix> {
    if bits <= BitLength(a) then Some(Prefix(a, bits)) else None
  }

  // ---- reading ----

  /** The index of the first subnet option, or the length. */
  function FirstSubnet(options: seq<Edns>): (i: nat)
    ensures i <= |options|
    ensures i < |options| ==> options[i].Subnet?
    ensures forall k :: 0 <= k < i ==> !options[k].Subnet?
  {
    if options == [] || options[0].Subnet? then 0 else 1 + FirstSubnet(options[1..])
  }

  predicate HoldsSubnet(r: RecordValue) {
    r.OptValue? && FirstSubnet(r.options) < |r.options|
  }

  /** The index of the first record that holds a subnet option, or the length. */
  function FirstHolder(extra: seq<RecordValue>): (i: nat)
    ensures i <= |extra|
    ensures i < |extra| ==> HoldsSubnet(extra[i])
    ensures forall k :: 0 <= k < i ==> !HoldsSubnet(extra[k])
  {
    if extra == [] || HoldsSubnet(extra[0]) then 0 else 1 + FirstHolder(extra[1..])
  }

  function SubnetOf(option: Edns): Option<Prefix>
    requires option.Subnet?
  {
    var a := AddressFromOctets(option.octets);
    if a.None? then None else PrefixFrom(Unmap(a.value), option.netmask)
  }

  /** clientSubnetFromMessage */
  function ReadSubnet(extra: seq<RecordValue>): Option<Prefix> {
    var i := FirstHolder(extra);
    if i == |extra| then None else SubnetOf(extra[i].options[FirstSubnet(extra[i].options)])
  }

  // ---- setting ----

  /** The option's fields after writing a prefix; an existing option keeps its scope. */
  function Written(option: Edns, p: Prefix): Edns
    requires option.Subnet?
  {
    Subnet(if p.address.V4? then 1 else 2, p.bits % 256, option.scope, p.address.octets)
  }

  const BLANK_SUBNET: Edns := Subnet(0, 0, 0, [])

  /** SetClientSubnet by value: rewrite the first subnet option; failing that, add one to the
      last record if it is an OPT record; failing that, add an OPT record. */
  function SetSubnet(extra: seq<RecordValue>, p: Prefix): seq<RecordValue> {
    var i := FirstHolder(extra);
    if i < |extra| then
      var j := FirstSubnet(extra[i].options);
      extra[i := extra[i].(options := extra[i].options[j := Written(extra[i].options[j], p)])]
    else if |extra| > 0 && extra[|extra| - 1].OptValue? then
      var last := |extra| - 1;
      extra[last := extra[last].(options := extra[last].options + [Written(BLANK_SUBNET, p)])]
    else extra + [OptValue(0, 0, [Written(BLANK_SUBNET, p)])]
  }

  lemma FirstSubnetIs(options: seq<Edns>, i: nat)
    requires i < |options| && options[i].Subnet? && forall k :: 0 <= k < i ==> !options[k].Subnet?
    ensures FirstSubnet(options) == i
  {
  }

  lemma FirstHolderIs(extra: seq<RecordValue>, i: nat)
    requires i < |extra| && HoldsSubnet(extra[i]) && forall k :: 0 <= k < i ==> !HoldsSubnet(extra[k])
    ensures FirstHolder(extra) == i
  {
  }

  /** Setting puts the written option where reading looks first. */
  lemma SetIsReadFirst(extra: seq<RecordValue>, p: Prefix)
    ensures exists blank: Edns :: blank.Subnet? && ReadSubnet(SetSubnet(extra, p)) == SubnetOf(Written(blank, p))
  {
    var i := FirstHolder(extra);
    var r := SetSubnet(extra, p);
    if i < |extra| {
      var j := FirstSubnet(extra[i].options);
      FirstSubnetIs(r[i].options, j);
      FirstHolderIs(r, i);
      assert ReadSubnet(r) == SubnetOf(Written(extra[i].options[j], p));
    } else {
      var at := |r| - 1;
      FirstSubnetIs(r[at].options, |r[at].options| - 1);
      FirstHolderIs(r, at);
      assert ReadSubnet(r) == SubnetOf(Written(BLANK_SUBNET, p));
    }
  }

  /** Set, then read, returns the prefix exactly when it is no IPv4-mapped IPv6 prefix. */
  lemma SetThenRead(extra: seq<RecordValue>, p: Prefix)
    requires ValidPrefix(p)
    ensures ReadSubnet(SetSubnet(extra, p)) == Some(p) <==> !Is4In6(p.address)
  {
    SetIsReadFirst(extra, p);
    assert p.bits % 256 == p.bits;
  }

  const MAPPED := V6([0, 0, 0, 0, 0, 0, 0, 0, 0, 0, 255, 255, 192, 0, 2, 1])

  /** An IPv4-mapped prefix of 24 bits is read back as an IPv4 prefix, one of 120 bits not at all. */
  lemma MappedIsLost(extra: seq<RecordValue>)
    ensures ReadSubnet(SetSubnet(extra, Prefix(MAPPED, 24))) == Some(Prefix(V4([192, 0, 2, 1]), 24))
    ensures ReadSubnet(SetSubnet(extra, Prefix(MAPPED, 120))) == None
  {
    SetIsReadFirst(extra, Prefix(MAPPED, 24));
    SetIsReadFirst(extra, Prefix(MAPPED, 120));
    forall blank: Edns | blank.Subnet?
      ensures SubnetOf(Written(blank, Prefix(MAPPED, 24))) == Some(Prefix(V4([192, 0, 2, 1]), 24))
      ensures SubnetOf(Written(blank, Prefix(MAPPED, 120))) == None
    {
      MappedReadsAsV4(blank);
    }
  }

  lemma MappedReadsAsV4(blank: Edns)
    requires blank.Subnet?
    ensures SubnetOf(Written(blank, Prefix(MAPPED, 24))) == Some(Prefix(V4([192, 0, 2, 1]), 24))
    ensures SubnetOf(Written(blank, Prefix(MAPPED, 120))) == None
  {
    assert MAPPED.octets[..10] == [0, 0, 0, 0, 0, 0, 0, 0, 0, 0];
    assert MAPPED.octets[12..] == [192, 0, 2, 1];
  }

  /** The options other than subnets, record by record. */
  function Unrelated(options: seq<Edns>): seq<Edns> {
    if options == [] then []
    else if options[0].Subnet? then Unrelated(options[1..])
    else [options[0]] + Unrelated(options[1..])
  }

  lemma {:induction false} UnrelatedUpdate(options: seq<Edns>, j: nat, option: Edns)
    requires j < |options| && options[j].Subnet? && option.Subnet?
    ensures Unrelated(options[j := option]) == Unrelated(options)
  {
    if j > 0 {
      UnrelatedUpdate(options[1..], j - 1, option);
      assert options[j := option][1..] == options[1..][j - 1 := option];
    }
  }

  lemma {:induction false} UnrelatedAppend(options: seq<Edns>, option: Edns)
    requires option.Subnet?
    ensures Unrelated(options + [option]) == Unrelated(options)
  {
    if options == [] {
      assert options + [option] == [option];
    } else {
      UnrelatedAppend(options[1..], option);
      assert (options + [option])[1..] == options[1..] + [option];
    }
  }

  ghost predicate SameApartFromSubnet(r: RecordValue, s: RecordValue) {
    || r == s
    || (r.OptValue? && s.OptValue? && s == r.(options := s.options) && Unrelated(s.options) == Unrelated(r.options))
  }

  /** Setting leaves every record in place and every unrelated option as it was; at most it adds
      one OPT record that holds nothing else. */
  lemma SetKeepsUnrelated(extra: seq<RecordValue>, p: Prefix)
    ensures var r := SetSubnet(extra, p);
            && |extra| <= |r| <= |extra| + 1
            && (forall i :: 0 <= i < |extra| ==> SameApartFromSubnet(extra[i], r[i]))
            && (|r| > |extra| ==> r[|extra|].OptValue? && Unrelated(r[|extra|].options) == [])
  {
    var i := FirstHolder(extra);
    if i < |extra| {
      var j := FirstSubnet(extra[i].options);
      UnrelatedUpdate(extra[i].options, j, Written(extra[i].options[j], p));
    } else if |extra| > 0 && extra[|extra| - 1].OptValue? {
      UnrelatedAppend(extra[|extra| - 1].options, Written(BLANK_SUBNET, p));
    }
  }

  // ---- removing ----

  function DropSubnets(options: seq<Edns>): (r: seq<Edns>)
    ensures forall o :: o in r <==> o in options && !HasSubnetCode(o)
  {
    if options == [] then []
    else
      var rest := DropSubnets(options[1..]);
      assert forall o :: o in options <==> o == options[0] || o in options[1..];
      if HasSubnetCode(options[0]) then rest else [options[0]] + rest
  }

  function WithoutSubnet(r: RecordValue): RecordValue {
    if r.OptValue? then r.(options := DropSubnets(r.options)) else r
  }

  /** removeClientSubnet by value. */
  function RemoveSubnet(extra: seq<RecordValue>): (r: seq<RecordValue>)
    ensures |r| == |extra| && forall i :: 0 <= i < |extra| ==> r[i] == WithoutSubnet(extra[i])
  {
    seq(|extra|, i requires 0 <= i < |extra| => WithoutSubnet(extra[i]))
  }

  lemma NothingToRead(r: RecordValue)
    ensures !HoldsSubnet(WithoutSubnet(r))
  {
    if r.OptValue? {
      var options := DropSubnets(r.options);
      assert forall i :: 0 <= i < |options| ==> options[i] in options && !options[i].Subnet?;
    }
  }

  lemma RemoveThenRead(extra: seq<RecordValue>)
    ensures ReadSubnet(RemoveSubnet(extra)) == None
  {
    var r := RemoveSubnet(extra);
    var i := FirstHolder(r);
    if i < |r| {
      NothingToRead(extra[i]);
    }
  }

  lemma {:induction false} DropNothing(options: seq<Edns>)
    requires forall k :: 0 <= k < |options| ==> !HasSubnetCode(options[k])
    ensures DropSubnets(options) == options
  {
    if options != [] {
      DropNothing(options[1..]);
    }
  }

  lemma {:induction false} DropUpdate(options: seq<Edns>, j: nat, option: Edns)
    requires j < |options| && options[j].Subnet? && option.Subnet?
    ensures DropSubnets(options[j := option]) == DropSubnets(options)
  {
    if j > 0 {
      DropUpdate(options[1..], j - 1, option);
      assert options[j := option][1..] == options[1..][j - 1 := option];
    }
  }

  lemma {:induction false} DropAppend(options: seq<Edns>, option: Edns)
    requires option.Subnet?
    ensures DropSubnets(options + [option]) == DropSubnets(options)
  {
    if options == [] {
      assert options + [option] == [option];
    } else {
      DropAppend(options[1..], option);
      assert (options + [option])[1..] == options[1..] + [option];
    }
  }

  /** Removing undoes setting, except that an added OPT record stays, empty. */
  lemma SetThenRemove(extra: seq<RecordValue>, p: Prefix)
    ensures RemoveSubnet(SetSubnet(extra, p)) ==
            RemoveSubnet(extra) + if |SetSubnet(extra, p)| == |extra| then [] else [OptValue(0, 0, [])]
  {
    var i := FirstHolder(extra);
    if i < |extra| {
      var j := FirstSubnet(extra[i].options);
      DropUpdate(extra[i].options, j, Written(extra[i].options[j], p));
    } else if |extra| > 0 && extra[|extra| - 1].OptValue? {
      DropAppend(extra[|extra| - 1].options, Written(BLANK_SUBNET, p));
    } else {
      DropAppend([], Written(BLANK_SUBNET, p));
      assert [] + [Written(BLANK_SUBNET, p)] == [Written(BLANK_SUBNET, p)];
    }
  }

  // ---- how many OPT records ----

  function OptCount(extra: seq<RecordValue>): nat {
    if extra == [] then 0
    else OptCount(extra[..|extra| - 1]) + if extra[|extra| - 1].OptValue? then 1 else 0
  }

  lemma {:induction false} SameKindsSameCount(extra: seq<RecordValue>, other: seq<RecordValue>)
    requires |extra| == |other| && forall i :: 0 <= i < |extra| ==> extra[i].OptValue? == other[i].OptValue?
    ensures OptCount(extra) == OptCount(other)
  {
    if extra != [] {
      SameKindsSameCount(extra[..|extra| - 1], other[..|other| - 1]);
    }
  }

  lemma {:induction false} CountIsPositive(extra: seq<RecordValue>)
    ensures OptCount(extra) > 0 <==> exists i :: 0 <= i < |extra| && extra[i].OptValue?
  {
    if extra != [] {
      CountIsPositive(extra[..|extra| - 1]);
    }
  }

  /** Section 6.1.1 of RFC 6891 allows one OPT record in a message. Setting the subnet keeps to
      that exactly when the message has no OPT record, or its OPT record comes last or already
      holds a subnet: an OPT record before other records is overlooked and a second one added. */
  lemma SetKeepsOneOpt(extra: seq<RecordValue>, p: Prefix)
    requires OptCount(extra) <= 1
    ensures OptCount(SetSubnet(extra, p)) <= 1 <==>
            forall i :: 0 <= i < |extra| && extra[i].OptValue? ==> i == |extra| - 1 || HoldsSubnet(extra[i])
  {
    var r := SetSubnet(extra, p);
    CountIsPositive(extra);
    if |r| == |extra| {
      SetKeepsKinds(extra, p);
      SameKindsSameCount(extra, r);
      forall i | 0 <= i < |extra| && extra[i].OptValue? ensures i == |extra| - 1 || HoldsSubnet(extra[i]) {
        OneOptIsTheOne(extra, i, if FirstHolder(extra) < |extra| then FirstHolder(extra) else |extra| - 1);
      }
    } else {
      AddedOptCounts(extra, p);
    }
  }

  lemma SetKeepsKinds(extra: seq<RecordValue>, p: Prefix)
    requires |SetSubnet(extra, p)| == |extra|
    ensures forall i :: 0 <= i < |extra| ==> SetSubnet(extra, p)[i].OptValue? == extra[i].OptValue?
    ensures extra != [] && (FirstHolder(extra) < |extra| || extra[|extra| - 1].OptValue?)
  {
  }

  lemma AddedOptCounts(extra: seq<RecordValue>, p: Prefix)
    requires |SetSubnet(extra, p)| != |extra|
    ensures OptCount(SetSubnet(extra, p)) == OptCount(extra) + 1
    ensures forall i :: 0 <= i < |extra| ==> !HoldsSubnet(extra[i])
    ensures extra != [] ==> !extra[|extra| - 1].OptValue?
  {
    var r := SetSubnet(extra, p);
    assert r[..|r| - 1] == extra;
  }

  /** An OPT record before another record: a second OPT record is added. */
  lemma SecondOptIsAdded(p: Prefix)
    ensures var extra := [OptValue(4096, 0, []), PlainValue(1, [])];
            OptCount(extra) == 1 && OptCount(SetSubnet(extra, p)) == 2
  {
    var extra := [OptValue(4096, 0, []), PlainValue(1, [])];
    assert !HoldsSubnet(extra[0]) && !HoldsSubnet(extra[1]) && FirstHolder(extra) == 2;
    var r := SetSubnet(extra, p);
    assert r[..2] == extra && extra[..1] == [extra[0]] && extra[..1][..0] == [];
    assert OptCount(extra[..1]) == 1;
  }

  lemma {:induction false} OneOptIsTheOne(extra: seq<RecordValue>, i: nat, j: nat)
    requires OptCount(extra) <= 1 && i < |extra| && j < |extra| && extra[i].OptValue? && extra[j].OptValue?
    ensures i == j
  {
    var init := extra[..|extra| - 1];
    CountIsPositive(init);
    assert forall k :: 0 <= k < |init| ==> init[k] == extra[k];
    if i < |init| && j < |init| {
      OneOptIsTheOne(init, i, j);
    }
  }

  // ---- cache keys ----

  /** prepareExchangeMessage by value. */
  function PrepareExtra(o: QueryOptions, clientDefault: Option<Prefix>, extra: seq<RecordValue>): seq<RecordValue> {
    if o.removeClientSubnet then RemoveSubnet(extra)
    else
      var p := if o.clientSubnet.Some? then o.clientSubnet else clientDefault;
      if p.Some? then SetSubnet(extra, p.value) else extra
  }

  /** The subnet newCacheKey files a message under. */
  function KeySubnet(o: QueryOptions, clientDefault: Option<Prefix>, extra: seq<RecordValue>): Option<Prefix> {
    if o.removeClientSubnet then None
    else if o.clientSubnet.Some? then o.clientSubnet
    else if clientDefault.Some? then clientDefault
    else ReadSubnet(extra)
  }

  /** The prefix a query is sent with, if one is set on it. */
  function Chosen(o: QueryOptions, clientDefault: Option<Prefix>): Option<Prefix> {
    if o.removeClientSubnet then None else if o.clientSubnet.Some? then o.clientSubnet else clientDefault
  }

  predicate ValidOption(p: Option<Prefix>) {
    p.Some? ==> ValidPrefix(p.value)
  }

  /** The key of a message, prepared or not, names exactly the subnet sent on the wire, unless
      the prefix set on it is an IPv4-mapped IPv6 prefix; then it never does. */
  lemma KeyMatchesWire(o: QueryOptions, clientDefault: Option<Prefix>, extra: seq<RecordValue>)
    requires ValidOption(o.clientSubnet) && ValidOption(clientDefault)
    ensures var sent := PrepareExtra(o, clientDefault, extra);
            var p := Chosen(o, clientDefault);
            && (KeySubnet(o, clientDefault, sent) == ReadSubnet(sent) <==> p.None? || !Is4In6(p.value.address))
            && (KeySubnet(o, clientDefault, extra) == ReadSubnet(sent) <==> p.None? || !Is4In6(p.value.address))
  {
    var p := Chosen(o, clientDefault);
    if o.removeClientSubnet {
      RemoveThenRead(extra);
    } else if p.Some? {
      SetThenRead(extra, p.value);
    }
  }

  /** With an IPv4-mapped prefix in the options, the key names a subnet that is not on the wire. */
  lemma MappedKeyMissesWire(o: QueryOptions, clientDefault: Option<Prefix>, extra: seq<RecordValue>)
    requires !o.removeClientSubnet && o.clientSubnet == Some(Prefix(MAPPED, 24))
    ensures KeySubnet(o, clientDefault, extra) != ReadSubnet(PrepareExtra(o, clientDefault, extra))
  {
    MappedIsLost(extra);
  }

  // ---- in place ----

  /** An OPT record; its option list is edited in place. */
  class OptRecord {
    const udpSize: nat
    const ttl: nat
    var options: seq<Edns>

    constructor (udpSize: nat, ttl: nat, options: seq<Edns>)
      ensures this.udpSize == udpSize && this.ttl == ttl && this.options == options
    {
      this.udpSize, this.ttl, this.options := udpSize, ttl, options;
    }
  }

  datatype Record = Opt(opt: OptRecord) | Plain(rrtype: nat, data: seq<int>)

  function OptsOf(extra: seq<Record>): set<OptRecord> {
    set i | 0 <= i < |extra| && extra[i].Opt? :: extra[i].opt
  }

  /** The records by value. */
  ghost predicate Reads(extra: seq<Record>, values: seq<RecordValue>)
    reads OptsOf(extra)
  {
    |values| == |extra| && forall i :: 0 <= i < |extra| ==> Is(extra[i], values[i])
  }

  ghost predicate Is(r: Record, value: RecordValue)
    reads if r.Opt? then {r.opt} else {}
  {
    value == if r.Opt? then OptValue(r.opt.udpSize, r.opt.ttl, r.opt.options) else PlainValue(r.rrtype, r.data)
  }

  ghost predicate DistinctOpts(extra: seq<Record>) {
    forall i, j :: 0 <= i < j < |extra| && extra[i].Opt? && extra[j].Opt? ==> extra[i].opt != extra[j].opt
  }

  /** Msg.Copy, as far as the extra records go: new OPT records with the same options. */
  method CopyExtra(extra: seq<Record>, ghost values: seq<RecordValue>) returns (r: seq<Record>)
    requires Reads(extra, values)
    ensures Reads(r, values) && DistinctOpts(r)
    ensures forall i :: 0 <= i < |r| && r[i].Opt? ==> fresh(r[i].opt)
  {
    r := [];
    while |r| < |extra|
      invariant |r| <= |extra| && DistinctOpts(r)
      invariant forall i :: 0 <= i < |r| && r[i].Opt? ==> fresh(r[i].opt)
      invariant forall i :: 0 <= i < |r| ==> Is(r[i], values[i])
    {
      assert Is(extra[|r|], values[|r|]);
      if extra[|r|].Opt? {
        var opt := extra[|r|].opt;
        var copy := new OptRecord(opt.udpSize, opt.ttl, opt.options);
        r := r + [Opt(copy)];
      } else {
        r := r + [extra[|r|]];
      }
    }
  }

  /** The search loop: the OPT record it leaves in hand, and where in it a subnet option was found. */
  method FindSubnet(extra: seq<Record>, ghost values: seq<RecordValue>)
    returns (opt: OptRecord?, at: Option<nat>, ghost i: nat)
    requires Reads(extra, values)
    ensures at.Some? <==> FirstHolder(values) < |values|
    ensures at.Some? ==> i == FirstHolder(values) && at.value == FirstSubnet(values[i].options)
    ensures at.None? && opt != null ==> i == |extra| - 1
    ensures opt != null ==> i < |extra| && extra[i].Opt? && extra[i].opt == opt
    ensures opt == null ==> at.None? && (extra == [] || extra[|extra| - 1].Plain?)
  {
    opt, at, i := null, None, |extra|;
    var k := 0;
    while k < |extra|
      invariant k <= |extra|
      invariant forall j :: 0 <= j < k ==> !HoldsSubnet(values[j])
      invariant if k > 0 && extra[k - 1].Opt? then opt == extra[k - 1].opt else opt == null
    {
      opt := null;
      assert Is(extra[k], values[k]);
      if extra[k].Opt? {
        opt := extra[k].opt;
        var j := 0;
        while j < |opt.options|
          invariant j <= |opt.options| && forall l :: 0 <= l < j ==> !opt.options[l].Subnet?
        {
          if opt.options[j].Subnet? {
            FirstSubnetIs(opt.options, j);
            FirstHolderIs(values, k);
            return opt, Some(j), k;
          }
          j := j + 1;
        }
      }
      k := k + 1;
    }
    i := if extra == [] then 0 else |extra| - 1;
  }

  /** The edit of one OPT record in place. */
  method WriteOption(opt: OptRecord, at: Option<nat>, p: Prefix)
    requires at.Some? ==> at.value < |opt.options| && opt.options[at.value].Subnet?
    modifies opt
    ensures opt.options == if at.Some? then old(opt.options)[at.value := Written(old(opt.options)[at.value], p)]
                           else old(opt.options) + [Written(BLANK_SUBNET, p)]
  {
    var j := |opt.options|;
    if at.None? {
      opt.options := opt.options + [BLANK_SUBNET];
    } else {
      j := at.value;
    }
    opt.options := opt.options[j := Written(opt.options[j], p)];
  }

  lemma SetChangesOne(values: seq<RecordValue>, p: Prefix, i: nat)
    requires i == if FirstHolder(values) < |values| then FirstHolder(values) else |values| - 1
    requires i < |values| && values[i].OptValue?
    ensures var r := SetSubnet(values, p);
            && |r| == |values| && r[i].OptValue? && r[i].(options := values[i].options) == values[i]
            && (forall k :: 0 <= k < |values| && k != i ==> r[k] == values[k])
  {
  }

  /** setClientSubnet on a copy: edits an OPT record of the message in place. */
  method EditSubnet(extra: seq<Record>, p: Prefix, ghost values: seq<RecordValue>)
    requires Reads(extra, values) && DistinctOpts(extra)
    requires FirstHolder(values) < |values| || (extra != [] && extra[|extra| - 1].Opt?)
    modifies OptsOf(extra)
    ensures Reads(extra, SetSubnet(values, p))
  {
    var opt, at, i := FindSubnet(extra, values);
    assert Is(extra[i], values[i]);
    assert opt in OptsOf(extra);
    WriteOption(opt, at, p);
    SetChangesOne(values, p, i);
    forall k | 0 <= k < |extra| ensures Is(extra[k], SetSubnet(values, p)[k]) {
      if k != i {
        assert Is(extra[k], values[k]);
      }
    }
  }

  /** SetClientSubnet: the records of the caller's message are not written to. */
  method SetClientSubnet(extra: seq<Record>, p: Prefix, ghost values: seq<RecordValue>) returns (r: seq<Record>)
    requires Reads(extra, values)
    ensures Reads(r, SetSubnet(values, p))
  {
    var opt, at, i := FindSubnet(extra, values);
    if opt == null {
      assert extra != [] ==> Is(extra[|extra| - 1], values[|extra| - 1]);
      var added := new OptRecord(0, 0, []);
      WriteOption(added, None, p);
      r := extra + [Opt(added)];
    } else {
      assert Is(extra[i], values[i]);
      r := CopyExtra(extra, values);
      assert Is(r[i], values[i]);
      EditSubnet(r, p, values);
    }
  }

  predicate Subnetless(options: seq<Edns>) {
    forall k :: 0 <= k < |options| ==> !HasSubnetCode(options[k])
  }

  /** removeClientSubnet: a message without the option is handed back as it is, any other is copied first. */
  method RemoveClientSubnet(extra: seq<Record>, ghost values: seq<RecordValue>) returns (r: seq<Record>)
    requires Reads(extra, values)
    ensures Reads(r, RemoveSubnet(values))
  {
    if forall i :: 0 <= i < |extra| && extra[i].Opt? ==> Subnetless(extra[i].opt.options) {
      forall i | 0 <= i < |extra| ensures Is(extra[i], WithoutSubnet(values[i])) {
        assert Is(extra[i], values[i]);
        if extra[i].Opt? {
          DropNothing(extra[i].opt.options);
        }
      }
      return extra;
    }
    r := CopyExtra(extra, values);
    DropEach(r, values);
  }

  /** The loop that filters the options of every OPT record in place. */
  method DropEach(extra: seq<Record>, ghost values: seq<RecordValue>)
    requires Reads(extra, values) && DistinctOpts(extra)
    modifies OptsOf(extra)
    ensures Reads(extra, RemoveSubnet(values))
  {
    var i := 0;
    while i < |extra|
      invariant i <= |extra|
      invariant forall k :: 0 <= k < i ==> Is(extra[k], WithoutSubnet(values[k]))
      invariant forall k :: i <= k < |extra| ==> Is(extra[k], values[k])
    {
      if extra[i].Opt? {
        assert extra[i].opt in OptsOf(extra);
        extra[i].opt.options := DropSubnets(extra[i].opt.options);
      }
      i := i + 1;
    }
  }
}
