/** The client subnet option of EDNS messages (section 6 of RFC 7871): reading it, removing it, setting
    it on a message without touching the caller's, and the cache key that must agree with the message
    sent.  Messages, OPT records and subnet options are objects that can be shared. */
module ClientSubnet {
  import opened Bytes
  import opened Optional

  datatype Address = NoAddress | V4(bytes: seq<Byte>) | V6(bytes: seq<Byte>) {
    predicate Valid() { (V4? ==> |bytes| == 4) && (V6? ==> |bytes| == 16) }

    function Width(): nat { match this case NoAddress => 0 case V4(_) => 32 case V6(_) => 128 }

    /** An IPv6 address that carries an IPv4 one, ::ffff:a.b.c.d. */
    predicate Mapped() {
      V6? && |bytes| == 16 && (forall i | 0 <= i < 10 :: bytes[i] == 0) && bytes[10] == 255 && bytes[11] == 255
    }

    function Unmapped(): Address { if Mapped() then V4(bytes[12..]) else this }
  }

  /** A prefix that fits no length has no bits, and is not valid. */
  datatype Prefix = Prefix(address: Address, bits: Option<nat>) {
    predicate Valid() { !address.NoAddress? && address.Valid() && bits.Some? && bits.value <= address.Width() }
  }

  const NO_PREFIX := Prefix(NoAddress, None)

  function PrefixFrom(a: Address, bits: nat): Prefix {
    Prefix(a, if !a.NoAddress? && bits <= a.Width() then Some(bits) else None)
  }

  function AddressFrom(bytes: seq<Byte>): Address {
    if |bytes| == 4 then V4(bytes) else if |bytes| == 16 then V6(bytes) else NoAddress
  }

  // ----- messages as values -----

  const SUBNET_CODE := 8

  datatype OptionView = SubnetView(family: nat, netmask: nat, address: seq<Byte>) | LocalView(code: nat, data: seq<Byte>) {
    function Code(): nat { if SubnetView? then SUBNET_CODE else code }
  }

  datatype RecordView = OptView(options: seq<OptionView>) | OtherView(data: string)

  datatype MessageView = MessageView(question: string, extra: seq<RecordView>)

  function FirstSubnet(options: seq<OptionView>): (r: Option<nat>)
    ensures r.Some? ==> r.value < |options| && options[r.value].SubnetView?
    ensures r.Some? ==> forall i | 0 <= i < r.value :: !options[i].SubnetView?
    ensures r.None? ==> forall i | 0 <= i < |options| :: !options[i].SubnetView?
  {
    if options == [] then None
    else if options[0].SubnetView? then Some(0)
    else var r := FirstSubnet(options[1..]); if r.None? then None else Some(r.value + 1)
  }

  predicate HasSubnet(r: RecordView) { r.OptView? && FirstSubnet(r.options).Some? }

  function FirstRecord(extra: seq<RecordView>): (r: Option<nat>)
    ensures r.Some? ==> r.value < |extra| && HasSubnet(extra[r.value])
    ensures r.Some? ==> forall i | 0 <= i < r.value :: !HasSubnet(extra[i])
    ensures r.None? ==> forall i | 0 <= i < |extra| :: !HasSubnet(extra[i])
  {
    if extra == [] then None
    else if HasSubnet(extra[0]) then Some(0)
    else var r := FirstRecord(extra[1..]); if r.None? then None else Some(r.value + 1)
  }

  /** The subnet a message carries: its first subnet option decides, well formed or not. */
  function SubnetOf(m: MessageView): Prefix {
    var r := FirstRecord(m.extra);
    if r.None? then NO_PREFIX
    else
      var options := m.extra[r.value].options;
      var o := options[FirstSubnet(options).value];
      var a := AddressFrom(o.address);
      if a.NoAddress? then NO_PREFIX else PrefixFrom(a.Unmapped(), o.netmask)
  }

  function SubnetFor(p: Prefix): OptionView
    requires p.Valid()
  {
    SubnetView(if p.address.V4? then 1 else 2, p.bits.value, p.address.bytes)
  }

  /** The first subnet option is replaced; without one, the option joins the last record if that is an
      OPT record, and a new OPT record is added otherwise. */
  function WithSubnet(m: MessageView, p: Prefix): MessageView
    requires p.Valid()
  {
    var r := FirstRecord(m.extra);
    var n := |m.extra|;
    if r.Some? then
      var options := m.extra[r.value].options;
      m.(extra := m.extra[r.value := OptView(options[FirstSubnet(options).value := SubnetFor(p)])])
    else if n > 0 && m.extra[n - 1].OptView? then
      m.(extra := m.extra[n - 1 := OptView(m.extra[n - 1].options + [SubnetFor(p)])])
    else m.(extra := m.extra + [OptView([SubnetFor(p)])])
  }

  function DropSubnets(options: seq<OptionView>): (out: seq<OptionView>)
    ensures forall o | o in out :: o.Code() != SUBNET_CODE && o in options
    ensures forall o | o in options && o.Code() != SUBNET_CODE :: o in out
    ensures (forall o | o in options :: o.Code() != SUBNET_CODE) ==> out == options
  {
    if options == [] then []
    else
      var rest, last := DropSubnets(options[..|options| - 1]), options[|options| - 1];
      assert options == options[..|options| - 1] + [last];
      if last.Code() == SUBNET_CODE then rest else rest + [last]
  }

  function DropFrom(r: RecordView): RecordView { if r.OptView? then OptView(DropSubnets(r.options)) else r }

  function Dropped(extra: seq<RecordView>): seq<RecordView> {
    seq(|extra|, i requires 0 <= i < |extra| => DropFrom(extra[i]))
  }

  function WithoutSubnet(m: MessageView): MessageView { m.(extra := Dropped(m.extra)) }

  // ----- the cache key -----

  datatype QueryOptions = QueryOptions(remove: bool, subnet: Prefix)

  function Configured(o: QueryOptions, default: Prefix): Prefix { if o.subnet.Valid() then o.subnet else default }

  function Prepared(m: MessageView, o: QueryOptions, default: Prefix): MessageView {
    var p := Configured(o, default);
    if o.remove then WithoutSubnet(m) else if p.Valid() then WithSubnet(m, p) else m
  }

  function KeySubnet(m: MessageView, o: QueryOptions, default: Prefix): Prefix {
    var p := Configured(o, default);
    if o.remove then NO_PREFIX else if p.Valid() then p else SubnetOf(m)
  }

  lemma FirstRecordIs(extra: seq<RecordView>, i: nat)
    requires i < |extra| && HasSubnet(extra[i]) && forall k | 0 <= k < i :: !HasSubnet(extra[k])
    ensures FirstRecord(extra) == Some(i)
  {
  }

  lemma FirstSubnetIs(options: seq<OptionView>, i: nat)
    requires i < |options| && options[i].SubnetView? && forall k | 0 <= k < i :: !options[k].SubnetView?
    ensures FirstSubnet(options) == Some(i)
  {
  }

  /** The mapped addresses are exactly those of ::ffff:0:0/96, and unmapping gives the last four bytes. */
  lemma MappedMeans(a: Address)
    requires a.V6? && a.Valid()
    ensures a.Mapped() <==> a.bytes[..12] == [0, 0, 0, 0, 0, 0, 0, 0, 0, 0, 255, 255]
    ensures a.Mapped() ==> a.Unmapped().V4? && a.bytes == a.bytes[..12] + a.Unmapped().bytes && a.Unmapped().Valid()
    ensures !a.Mapped() ==> a.Unmapped() == a
  {
    var start: seq<Byte> := [0, 0, 0, 0, 0, 0, 0, 0, 0, 0, 255, 255];
    if a.Mapped() {
      forall i | 0 <= i < 12 ensures a.bytes[..12][i] == start[i] { }
      assert a.bytes[..12] == start;
    }
    if a.bytes[..12] == start { StartIsMapped(a); }
  }

  lemma StartIsMapped(a: Address)
    requires a.V6? && a.Valid() && a.bytes[..12] == [0, 0, 0, 0, 0, 0, 0, 0, 0, 0, 255, 255]
    ensures a.Mapped()
  {
    forall i | 0 <= i < 12 ensures a.bytes[i] == a.bytes[..12][i] { }
  }

  /** A prefix may be as long as its address has bits, and no longer. */
  lemma PrefixFits(a: Address, bits: nat)
    requires !a.NoAddress? && a.Valid()
    ensures PrefixFrom(a, bits).Valid() <==> bits <= 8 * |a.bytes|
    ensures PrefixFrom(a, bits).bits.Some? <==> bits <= 8 * |a.bytes|
    ensures bits <= 8 * |a.bytes| ==> PrefixFrom(a, bits) == Prefix(a, Some(bits))
    ensures Prefix(a, Some(bits)).Valid() <==> bits <= 8 * |a.bytes|
  {
  }

  /** Option code 8, in whatever form, is what removal removes. */
  lemma RemovesCodeEight(m: MessageView, i: nat)
    requires i < |m.extra| && m.extra[i].OptView?
    ensures var out := WithoutSubnet(m).extra[i];
            && out.OptView?
            && forall o :: o in out.options <==> o in m.extra[i].options && !o.SubnetView? && !(o.LocalView? && o.code == 8)
  {
  }

  /** The option sent has the family that the length of its address tells, and a prefix that fits it. */
  lemma FamilyFitsAddress(p: Prefix)
    requires p.Valid()
    ensures var o := SubnetFor(p);
            && (o.family == 1 <==> |o.address| == 4) && (o.family == 2 <==> |o.address| == 16)
            && (o.family == 1 || o.family == 2) && o.netmask <= 8 * |o.address|
            && AddressFrom(o.address) == p.address && p.bits == Some(o.netmask)
  {
  }

  /** Setting a subnet and reading it back gives the subnet, IPv4-mapped addresses unmapped. */
  lemma SetThenRead(m: MessageView, p: Prefix)
    requires p.Valid()
    ensures SubnetOf(WithSubnet(m, p)) == PrefixFrom(p.address.Unmapped(), p.bits.value)
  {
    var r := FirstRecord(m.extra);
    var m' := WithSubnet(m, p);
    var at := if r.Some? then r.value else if |m.extra| > 0 && m.extra[|m.extra| - 1].OptView? then |m.extra| - 1 else |m.extra|;
    var options := m'.extra[at].options;
    var o := if r.Some? then FirstSubnet(m.extra[at].options).value else |options| - 1;
    FirstSubnetIs(options, o);
    FirstRecordIs(m'.extra, at);
  }

  lemma RemoveThenRead(m: MessageView)
    ensures SubnetOf(WithoutSubnet(m)) == NO_PREFIX
  {
    var extra := WithoutSubnet(m).extra;
    forall i | 0 <= i < |extra| ensures !HasSubnet(extra[i]) {
      assert extra[i] == DropFrom(m.extra[i]);
      if extra[i].OptView? {
        var options := extra[i].options;
        assert forall k | 0 <= k < |options| :: options[k] in options;
      }
    }
  }

  /** The key names the subnet the sent message carries, for every message and options, if and only if
      the subnet put on the message is not an IPv4-mapped IPv6 one. */
  lemma KeyMatchesWireIff(m: MessageView, o: QueryOptions, default: Prefix)
    ensures var sent := Prepared(m, o, default);
            KeySubnet(sent, o, default) == SubnetOf(sent)
            <==> (o.remove || !Configured(o, default).Valid() || !Configured(o, default).address.Mapped())
  {
    var p := Configured(o, default);
    if o.remove {
      RemoveThenRead(m);
    } else if p.Valid() {
      SetThenRead(m, p);
    }
  }

  /** A concrete failure: ::ffff:1.2.3.4/120 is keyed, and read back as no valid subnet at all. */
  lemma MappedSubnetIsLost(m: MessageView)
    ensures var mapped := V6([0, 0, 0, 0, 0, 0, 0, 0, 0, 0, 255, 255, 1, 2, 3, 4]);
            var o := QueryOptions(false, Prefix(mapped, Some(120)));
            var sent := Prepared(m, o, NO_PREFIX);
            && KeySubnet(sent, o, NO_PREFIX) == o.subnet && o.subnet.Valid()
            && !SubnetOf(sent).Valid()
  {
    var mapped := V6([0, 0, 0, 0, 0, 0, 0, 0, 0, 0, 255, 255, 1, 2, 3, 4]);
    SetThenRead(m, Prefix(mapped, Some(120)));
  }

  /** Lookups key the message before it is prepared, exchanges after: the keys are the same. */
  lemma KeyIgnoresPreparation(m: MessageView, o: QueryOptions, default: Prefix)
    ensures KeySubnet(Prepared(m, o, default), o, default) == KeySubnet(m, o, default)
  {
  }

  /** Preparing a prepared message changes nothing. */
  lemma PreparedTwice(m: MessageView, o: QueryOptions, default: Prefix)
    ensures Prepared(Prepared(m, o, default), o, default) == Prepared(m, o, default)
  {
    var p := Configured(o, default);
    var sent := Prepared(m, o, default);
    if o.remove {
      forall i | 0 <= i < |sent.extra| ensures DropFrom(sent.extra[i]) == sent.extra[i] {
        assert sent.extra[i] == DropFrom(m.extra[i]);
      }
      assert WithoutSubnet(sent).extra == sent.extra;
    } else if p.Valid() {
      SetIsIdempotent(m, p);
    }
  }

  lemma SetIsIdempotent(m: MessageView, p: Prefix)
    requires p.Valid()
    ensures WithSubnet(WithSubnet(m, p), p) == WithSubnet(m, p)
  {
    var r := FirstRecord(m.extra);
    var m' := WithSubnet(m, p);
    var at := if r.Some? then r.value else if |m.extra| > 0 && m.extra[|m.extra| - 1].OptView? then |m.extra| - 1 else |m.extra|;
    var options := m'.extra[at].options;
    var o := if r.Some? then FirstSubnet(m.extra[at].options).value else |options| - 1;
    FirstSubnetIs(options, o);
    FirstRecordIs(m'.extra, at);
    assert options[o := SubnetFor(p)] == options;
    assert m'.extra[at := OptView(options)] == m'.extra;
  }

  // ----- nothing else changes -----

  /** Removal works record by record and option by option, in order. */
  lemma {:induction false} DropAppends(a: seq<OptionView>, b: seq<OptionView>)
    ensures DropSubnets(a + b) == DropSubnets(a) + DropSubnets(b)
  {
    if b == [] {
      assert a + b == a;
    } else {
      var rest, last := b[..|b| - 1], b[|b| - 1];
      DropAppends(a, rest);
      assert (a + b)[..|a + b| - 1] == a + rest && (a + b)[|a + b| - 1] == last;
    }
  }

  /** All options of all OPT records, in order. */
  function Options(extra: seq<RecordView>): seq<OptionView> {
    if extra == [] then []
    else
      var last := extra[|extra| - 1];
      Options(extra[..|extra| - 1]) + if last.OptView? then last.options else []
  }

  function Others(extra: seq<RecordView>): seq<RecordView> {
    if extra == [] then []
    else
      var last := extra[|extra| - 1];
      Others(extra[..|extra| - 1]) + if last.OptView? then [] else [last]
  }

  lemma {:induction false} Replaced(extra: seq<RecordView>, i: nat, r: RecordView)
    requires i < |extra| && extra[i].OptView? && r.OptView?
    requires DropSubnets(r.options) == DropSubnets(extra[i].options)
    ensures DropSubnets(Options(extra[i := r])) == DropSubnets(Options(extra))
    ensures Others(extra[i := r]) == Others(extra)
  {
    var n := |extra| - 1;
    var rest, last := extra[..n], extra[n];
    var changed := extra[i := r];
    if i == n {
      assert changed[..n] == rest;
      DropAppends(Options(rest), r.options);
      DropAppends(Options(rest), last.options);
    } else {
      Replaced(rest, i, r);
      assert changed[..n] == rest[i := r];
      var more := if last.OptView? then last.options else [];
      DropAppends(Options(rest[i := r]), more);
      DropAppends(Options(rest), more);
    }
  }

  /** Setting a subnet changes no other option and no other record, and not their order. */
  lemma SetKeepsTheRest(m: MessageView, p: Prefix)
    requires p.Valid()
    ensures var m' := WithSubnet(m, p);
            && m'.question == m.question
            && DropSubnets(Options(m'.extra)) == DropSubnets(Options(m.extra))
            && Others(m'.extra) == Others(m.extra)
  {
    var r := FirstRecord(m.extra);
    var n := |m.extra|;
    var o := SubnetFor(p);
    assert DropSubnets([o]) == [] by { assert [o][..0] == []; }
    if r.Some? {
      var options := m.extra[r.value].options;
      var i := FirstSubnet(options).value;
      DropIgnoresSubnet(options, i, o);
      Replaced(m.extra, r.value, OptView(options[i := o]));
    } else if n > 0 && m.extra[n - 1].OptView? {
      DropAppends(m.extra[n - 1].options, [o]);
      Replaced(m.extra, n - 1, OptView(m.extra[n - 1].options + [o]));
    } else {
      assert (m.extra + [OptView([o])])[..n] == m.extra;
      DropAppends(Options(m.extra), [o]);
    }
  }

  lemma DropIgnoresSubnet(options: seq<OptionView>, i: nat, o: OptionView)
    requires i < |options| && options[i].SubnetView? && o.SubnetView?
    ensures DropSubnets(options[i := o]) == DropSubnets(options)
  {
    var a, b := options[..i], options[i + 1..];
    assert options == a + ([options[i]] + b) && options[i := o] == a + ([o] + b);
    assert DropSubnets([o]) == [] && DropSubnets([options[i]]) == [];
    DropAppends(a, [o] + b);
    DropAppends([o], b);
    DropAppends(a, [options[i]] + b);
    DropAppends([options[i]], b);
  }

  /** Removing what was set leaves what removing alone leaves, but for an OPT record that was added. */
  lemma RemoveUndoesSet(m: MessageView, p: Prefix)
    requires p.Valid()
    ensures Options(WithoutSubnet(WithSubnet(m, p)).extra) == Options(WithoutSubnet(m).extra)
    ensures Others(WithoutSubnet(WithSubnet(m, p)).extra) == Others(WithoutSubnet(m).extra)
  {
    SetKeepsTheRest(m, p);
    RemoveKeepsTheRest(WithSubnet(m, p).extra);
    RemoveKeepsTheRest(m.extra);
  }

  /** Removal leaves exactly the options without the subnet code, and every other record. */
  lemma {:induction false} RemoveKeepsTheRest(extra: seq<RecordView>)
    ensures Options(Dropped(extra)) == DropSubnets(Options(extra)) && Others(Dropped(extra)) == Others(extra)
  {
    if extra != [] {
      var n := |extra| - 1;
      RemoveKeepsTheRest(extra[..n]);
      assert Dropped(extra)[..n] == Dropped(extra[..n]);
      DropAppends(Options(extra[..n]), if extra[n].OptView? then extra[n].options else []);
    }
  }

  // ----- how many OPT records -----

  function OptCount(extra: seq<RecordView>): nat {
    if extra == [] then 0 else OptCount(extra[..|extra| - 1]) + if extra[|extra| - 1].OptView? then 1 else 0
  }

  lemma {:induction false} OptCountUpdate(extra: seq<RecordView>, i: nat, r: RecordView)
    requires i < |extra| && extra[i].OptView? && r.OptView?
    ensures OptCount(extra[i := r]) == OptCount(extra)
  {
    var n := |extra| - 1;
    if i < n {
      OptCountUpdate(extra[..n], i, r);
      assert extra[i := r][..n] == extra[..n][i := r];
    } else {
      assert extra[i := r][..n] == extra[..n];
    }
  }

  /** An OPT record is added exactly if no record has a subnet option and the last one is not an OPT record,
      so a second one exactly if there is an OPT record, without subnet, and another record comes last. */
  lemma OptRecordAddedIff(m: MessageView, p: Prefix)
    requires p.Valid()
    ensures var n := |m.extra|; var more := OptCount(WithSubnet(m, p).extra);
            var adds := FirstRecord(m.extra).None? && (n == 0 || !m.extra[n - 1].OptView?);
            && more == OptCount(m.extra) + (if adds then 1 else 0)
            && (OptCount(m.extra) <= 1 ==> (more <= 1 <==> !(adds && OptCount(m.extra) == 1)))
  {
    var r := FirstRecord(m.extra);
    var n := |m.extra|;
    if r.Some? {
      var options := m.extra[r.value].options;
      OptCountUpdate(m.extra, r.value, OptView(options[FirstSubnet(options).value := SubnetFor(p)]));
    } else if n > 0 && m.extra[n - 1].OptView? {
      OptCountUpdate(m.extra, n - 1, OptView(m.extra[n - 1].options + [SubnetFor(p)]));
    } else {
      assert WithSubnet(m, p).extra[..n] == m.extra;
    }
  }

  /** Such a message: an OPT record without subnet, followed by a record of another type. */
  lemma SecondOptRecord(question: string, data: string, p: Prefix)
    requires p.Valid()
    ensures var m := MessageView(question, [OptView([]), OtherView(data)]);
            && OptCount(m.extra) == 1
            && WithSubnet(m, p).extra == [OptView([]), OtherView(data), OptView([SubnetFor(p)])]
            && OptCount(WithSubnet(m, p).extra) == 2
  {
    var extra := [OptView([]), OtherView(data)];
    assert extra[..1] == [OptView([])] && extra[..1][..0] == [];
    assert OptCount(extra[..1]) == 1;
    assert extra[1..] == [OtherView(data)] && extra[1..][1..] == [];
    assert FirstRecord(extra).None?;
    OptRecordAddedIff(MessageView(question, extra), p);
  }
}
