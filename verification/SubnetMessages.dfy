/** Setting and removing the client subnet on message objects: the caller's message, its OPT records
    and its options are never written, whatever is shared between them. */
module SubnetMessages {
  import opened Bytes
  import opened Optional
  import opened ClientSubnet

  class SubnetOption {
    var family: nat
    var netmask: nat
    var address: seq<Byte>

    constructor (family: nat, netmask: nat, address: seq<Byte>)
      ensures this.family == family && this.netmask == netmask && this.address == address
    {
      this.family, this.netmask, this.address := family, netmask, address;
    }

    method Fill(p: Prefix)
      requires p.Valid()
      modifies this
      ensures SubnetView(family, netmask, address) == SubnetFor(p)
    {
      family := if p.address.V4? then 1 else 2;
      netmask := p.bits.value;
      address := p.address.bytes;
    }
  }

  datatype EdnsOption = Subnet(option: SubnetOption) | Local(code: nat, data: seq<Byte>)

  class OptRecord {
    var options: seq<EdnsOption>

    constructor (options: seq<EdnsOption>)
      ensures this.options == options
    {
      this.options := options;
    }
  }

  datatype Record = Opt(record: OptRecord) | Other(data: string)

  // ----- what objects stand for -----

  ghost predicate OptionsIn(os: seq<EdnsOption>, repr: set<object>) {
    forall i | 0 <= i < |os| && os[i].Subnet? :: os[i].option in repr
  }

  ghost function ViewOption(o: EdnsOption, repr: set<object>): OptionView
    requires o.Subnet? ==> o.option in repr
    reads repr
  {
    match o
    case Subnet(s) => SubnetView(s.family, s.netmask, s.address)
    case Local(code, data) => LocalView(code, data)
  }

  ghost function ViewOptions(os: seq<EdnsOption>, repr: set<object>): (v: seq<OptionView>)
    requires OptionsIn(os, repr)
    reads repr
    ensures |v| == |os| && forall i | 0 <= i < |os| :: v[i] == ViewOption(os[i], repr)
  {
    if os == [] then [] else ViewOptions(os[..|os| - 1], repr) + [ViewOption(os[|os| - 1], repr)]
  }

  ghost predicate RecordIn(r: Record, repr: set<object>)
    reads repr
  {
    r.Opt? ==> r.record in repr && OptionsIn(r.record.options, repr)
  }

  ghost function ViewRecord(r: Record, repr: set<object>): RecordView
    requires RecordIn(r, repr)
    reads repr
  {
    if r.Opt? then OptView(ViewOptions(r.record.options, repr)) else OtherView(r.data)
  }

  ghost predicate RecordsIn(rs: seq<Record>, repr: set<object>)
    reads repr
  {
    forall i | 0 <= i < |rs| :: RecordIn(rs[i], repr)
  }

  ghost function ViewRecords(rs: seq<Record>, repr: set<object>): (v: seq<RecordView>)
    requires RecordsIn(rs, repr)
    reads repr
    ensures |v| == |rs| && forall i | 0 <= i < |rs| :: v[i] == ViewRecord(rs[i], repr)
  {
    if rs == [] then [] else ViewRecords(rs[..|rs| - 1], repr) + [ViewRecord(rs[|rs| - 1], repr)]
  }

  /** `Repr` holds every OPT record and subnet option the message can reach. */
  class DnsMessage {
    var question: string
    var extra: seq<Record>
    ghost var Repr: set<object>

    constructor (question: string, extra: seq<Record>, ghost repr: set<object>)
      requires RecordsIn(extra, repr)
      ensures this.question == question && this.extra == extra && Repr == repr
      ensures Valid() && View() == MessageView(question, old(ViewRecords(extra, repr)))
    {
      this.question, this.extra, this.Repr := question, extra, repr;
    }

    ghost method Reaches(repr: set<object>)
      requires this !in repr && RecordsIn(extra, repr)
      modifies this`Repr
      ensures Repr == repr && Valid() && View() == MessageView(question, old(ViewRecords(extra, repr)))
    {
      Repr := repr;
    }

    ghost predicate Valid()
      reads this, Repr
    {
      this !in Repr && RecordsIn(extra, Repr)
    }

    ghost function View(): MessageView
      requires Valid()
      reads this, Repr
    {
      MessageView(question, ViewRecords(extra, Repr))
    }
  }

  // ----- copying -----

  ghost predicate Apart(os: seq<EdnsOption>) {
    forall i, j | 0 <= i < j < |os| && os[i].Subnet? && os[j].Subnet? :: os[i].option != os[j].option
  }

  ghost predicate Separate(a: Record, b: Record)
    reads if a.Opt? then {a.record} else {}, if b.Opt? then {b.record} else {}
  {
    a.Opt? && b.Opt? ==>
      && a.record != b.record
      && forall i, j | 0 <= i < |a.record.options| && 0 <= j < |b.record.options| ::
           a.record.options[i].Subnet? && b.record.options[j].Subnet? ==> a.record.options[i].option != b.record.options[j].option
  }

  /** No OPT record and no subnet option occurs twice in a message. */
  ghost predicate Unshared(rs: seq<Record>, repr: set<object>)
    requires RecordsIn(rs, repr)
    reads repr
  {
    && (forall i, j | 0 <= i < j < |rs| :: Separate(rs[i], rs[j]))
    && (forall i | 0 <= i < |rs| && rs[i].Opt? :: Apart(rs[i].record.options))
  }

  method CopyOptions(os: seq<EdnsOption>, ghost repr: set<object>) returns (out: seq<EdnsOption>, ghost made: set<object>)
    requires OptionsIn(os, repr)
    ensures fresh(made) && OptionsIn(out, made) && Apart(out)
    ensures ViewOptions(out, made) == ViewOptions(os, repr)
  {
    out, made := [], {};
    for i := 0 to |os|
      invariant |out| == i && fresh(made) && OptionsIn(out, made) && Apart(out)
      invariant forall k | 0 <= k < i :: ViewOption(out[k], made) == ViewOption(os[k], repr)
    {
      match os[i] {
        case Subnet(s) =>
          var copy := new SubnetOption(s.family, s.netmask, s.address);
          out, made := out + [Subnet(copy)], made + {copy};
        case Local(code, data) =>
          out := out + [os[i]];
      }
    }
  }

  method CopyRecord(r: Record, ghost repr: set<object>) returns (out: Record, ghost made: set<object>)
    requires RecordIn(r, repr)
    ensures fresh(made) && RecordIn(out, made) && (out.Opt? ==> Apart(out.record.options))
    ensures ViewRecord(out, made) == ViewRecord(r, repr)
  {
    match r {
      case Opt(record) =>
        var options, leaves := CopyOptions(record.options, repr);
        var copy := new OptRecord(options);
        out, made := Opt(copy), leaves + {copy};
        assert ViewOptions(options, made) == ViewOptions(options, leaves);
      case Other(data) =>
        out, made := r, {};
    }
  }

  lemma LargerRepr(r: Record, small: set<object>, large: set<object>)
    requires RecordIn(r, small) && small <= large
    ensures RecordIn(r, large) && ViewRecord(r, large) == ViewRecord(r, small)
  {
    if r.Opt? {
      var os := r.record.options;
      assert forall i | 0 <= i < |os| :: ViewOption(os[i], large) == ViewOption(os[i], small);
      assert ViewOptions(os, large) == ViewOptions(os, small);
    }
  }

  lemma OneMoreView(rest: seq<Record>, before: set<object>, last: Record, added: set<object>)
    requires RecordsIn(rest, before) && RecordIn(last, added)
    ensures var all := rest + [last];
            && RecordsIn(all, before + added)
            && ViewRecords(all, before + added) == ViewRecords(rest, before) + [ViewRecord(last, added)]
  {
    var all := rest + [last];
    forall i | 0 <= i < |rest|
      ensures RecordIn(all[i], before + added) && ViewRecord(all[i], before + added) == ViewRecord(rest[i], before)
    {
      assert RecordIn(rest[i], before);
      LargerRepr(rest[i], before, before + added);
    }
    LargerRepr(last, added, before + added);
    assert RecordsIn(all, before + added);
    assert ViewRecords(all, before + added) == ViewRecords(rest, before) + [ViewRecord(last, added)];
  }

  /** Records copied one after another share nothing. */
  lemma OneMoreRecord(rest: seq<Record>, before: set<object>, last: Record, added: set<object>)
    requires RecordsIn(rest, before) && Unshared(rest, before) && RecordIn(last, added) && before !! added
    requires last.Opt? ==> Apart(last.record.options)
    ensures var all := rest + [last];
            && RecordsIn(all, before + added) && Unshared(all, before + added)
            && ViewRecords(all, before + added) == ViewRecords(rest, before) + [ViewRecord(last, added)]
  {
    OneMoreView(rest, before, last, added);
    var all := rest + [last];
    forall i | 0 <= i < |rest| ensures Separate(all[i], last) {
      assert RecordIn(rest[i], before);
      ApartIsSeparate(rest[i], before, last, added);
    }
    forall i, j | 0 <= i < j < |all| ensures Separate(all[i], all[j]) {
      if j < |rest| { assert Separate(rest[i], rest[j]); }
    }
  }

  lemma ApartIsSeparate(a: Record, before: set<object>, b: Record, added: set<object>)
    requires RecordIn(a, before) && RecordIn(b, added) && before !! added
    ensures Separate(a, b)
  {
  }

  method CopyRecords(rs: seq<Record>, ghost repr: set<object>) returns (out: seq<Record>, ghost made: set<object>)
    requires RecordsIn(rs, repr)
    ensures fresh(made) && RecordsIn(out, made) && Unshared(out, made)
    ensures ViewRecords(out, made) == ViewRecords(rs, repr)
  {
    if rs == [] {
      return [], {};
    }
    var n := |rs| - 1;
    var rest, last;
    ghost var before, added;
    rest, before := CopyRecords(rs[..n], repr);
    ghost var view := ViewRecords(rest, before);
    assert view == ViewRecords(rs[..n], repr);
    assert RecordIn(rs[n], repr);
    last, added := CopyRecord(rs[n], repr);
    assert before !! added;
    assert ViewRecords(rest, before) == view && Unshared(rest, before);
    OneMoreRecord(rest, before, last, added);
    out, made := rest + [last], before + added;
    assert ViewRecords(rs, repr) == ViewRecords(rs[..n], repr) + [ViewRecord(rs[n], repr)];
  }

  method Copy(m: DnsMessage) returns (out: DnsMessage)
    requires m.Valid()
    ensures fresh(out) && fresh(out.Repr) && out.Valid() && Unshared(out.extra, out.Repr)
    ensures out.View() == m.View()
  {
    var extra;
    ghost var made;
    extra, made := CopyRecords(m.extra, m.Repr);
    out := new DnsMessage(m.question, extra, made);
  }

  // ----- reading and writing the subnet -----

  /** The first subnet option of an OPT record. */
  method FindOption(record: OptRecord, ghost repr: set<object>) returns (option: SubnetOption?, ghost at: nat)
    requires record in repr && OptionsIn(record.options, repr)
    ensures var first := FirstSubnet(ViewOptions(record.options, repr));
            if option == null then first.None?
            else first == Some(at) && at < |record.options| && record.options[at] == Subnet(option)
  {
    at := 0;
    for i := 0 to |record.options|
      invariant forall k | 0 <= k < i :: !record.options[k].Subnet?
    {
      if record.options[i].Subnet? {
        at := i;
        FirstSubnetIs(ViewOptions(record.options, repr), i);
        return record.options[i].option, at;
      }
    }
    option := null;
  }

  /** The record and option the search stops at: the first subnet option with its record, or else the
      last record when that is an OPT record. */
  method Find(m: DnsMessage) returns (record: OptRecord?, option: SubnetOption?, ghost at: nat, ghost place: nat)
    requires m.Valid()
    ensures record != null ==> at < |m.extra| && m.extra[at] == Opt(record)
    ensures option != null ==> record != null && FirstRecord(m.View().extra) == Some(at)
    ensures option != null ==> FirstSubnet(ViewOptions(record.options, m.Repr)) == Some(place)
                               && place < |record.options| && record.options[place] == Subnet(option)
    ensures option == null ==> FirstRecord(m.View().extra).None?
    ensures option == null && record != null ==> at == |m.extra| - 1
    ensures record == null ==> |m.extra| == 0 || !m.extra[|m.extra| - 1].Opt?
  {
    ghost var v := m.View().extra;
    record, option, at, place := null, null, 0, 0;
    for i := 0 to |m.extra|
      invariant option == null
      invariant record != null ==> 0 < i && at == i - 1 && m.extra[at] == Opt(record)
      invariant record == null ==> i == 0 || !m.extra[i - 1].Opt?
      invariant forall k | 0 <= k < i :: !HasSubnet(v[k])
    {
      assert RecordIn(m.extra[i], m.Repr) && v[i] == ViewRecord(m.extra[i], m.Repr);
      at := i;
      if !m.extra[i].Opt? {
        record := null;
        continue;
      }
      record := m.extra[i].record;
      option, place := FindOption(record, m.Repr);
      if option != null {
        FirstRecordIs(v, i);
        return;
      }
    }
  }

  method Read(m: DnsMessage) returns (p: Prefix)
    requires m.Valid()
    ensures p == SubnetOf(m.View())
  {
    ghost var v := m.View().extra;
    for i := 0 to |m.extra|
      invariant forall k | 0 <= k < i :: !HasSubnet(v[k])
    {
      assert RecordIn(m.extra[i], m.Repr) && v[i] == ViewRecord(m.extra[i], m.Repr);
      if !m.extra[i].Opt? {
        continue;
      }
      var option, at := FindOption(m.extra[i].record, m.Repr);
      if option != null {
        FirstRecordIs(v, i);
        var address := AddressFrom(option.address);
        if address.NoAddress? {
          return NO_PREFIX;
        }
        return PrefixFrom(address.Unmapped(), option.netmask);
      }
    }
    return NO_PREFIX;
  }

  /** Rewriting the option in place, in a message that shares nothing. */
  method Replace(m: DnsMessage, option: SubnetOption, p: Prefix, ghost at: nat, ghost place: nat)
    requires m.Valid() && Unshared(m.extra, m.Repr) && p.Valid()
    requires at < |m.extra| && m.extra[at].Opt? && place < |m.extra[at].record.options|
    requires m.extra[at].record.options[place] == Subnet(option)
    modifies option
    ensures m.Valid()
    ensures var v := old(m.View());
            m.View() == v.(extra := v.extra[at := OptView(v.extra[at].options[place := SubnetFor(p)])])
  {
    ghost var v := m.View();
    assert RecordIn(m.extra[at], m.Repr);
    option.Fill(p);
    ghost var os := m.extra[at].record.options;
    assert ViewOptions(os, m.Repr) == v.extra[at].options[place := SubnetFor(p)];
    forall i | 0 <= i < |m.extra| && i != at ensures ViewRecord(m.extra[i], m.Repr) == v.extra[i] {
      assert RecordIn(m.extra[i], m.Repr);
      assert if i < at then Separate(m.extra[i], m.extra[at]) else Separate(m.extra[at], m.extra[i]);
      if m.extra[i].Opt? { assert ViewOptions(m.extra[i].record.options, m.Repr) == v.extra[i].options; }
    }
    assert m.View().extra == v.extra[at := OptView(v.extra[at].options[place := SubnetFor(p)])];
  }

  /** Adding an option to an OPT record in place. */
  method ExtendRecord(rs: seq<Record>, record: OptRecord, option: SubnetOption, ghost at: nat, ghost repr: set<object>)
    requires RecordsIn(rs, repr) && Unshared(rs, repr) && at < |rs| && rs[at] == Opt(record) && option in repr && record in repr
    modifies record
    ensures RecordsIn(rs, repr)
    ensures var v := old(ViewRecords(rs, repr));
            ViewRecords(rs, repr) == v[at := OptView(v[at].options + [ViewOption(Subnet(option), repr)])]
  {
    ghost var v := ViewRecords(rs, repr);
    assert RecordIn(rs[at], repr);
    UnsharedIsApart(rs, repr);
    record.options := record.options + [Subnet(option)];
    forall i | 0 <= i < |rs| && i != at ensures RecordIn(rs[i], repr) && ViewRecord(rs[i], repr) == v[i] {
      if rs[i].Opt? { assert ViewOptions(rs[i].record.options, repr) == v[i].options; }
    }
    assert RecordIn(rs[at], repr);
    assert ViewOptions(record.options, repr) == v[at].options + [ViewOption(Subnet(option), repr)];
    assert ViewRecords(rs, repr) == v[at := OptView(v[at].options + [ViewOption(Subnet(option), repr)])];
  }

  lemma LargerReprs(rs: seq<Record>, small: set<object>, large: set<object>)
    requires RecordsIn(rs, small) && small <= large
    ensures RecordsIn(rs, large) && ViewRecords(rs, large) == ViewRecords(rs, small)
    ensures Unshared(rs, small) ==> Unshared(rs, large)
  {
    forall i | 0 <= i < |rs| ensures RecordIn(rs[i], large) && ViewRecord(rs[i], large) == ViewRecord(rs[i], small) {
      assert RecordIn(rs[i], small);
      LargerRepr(rs[i], small, large);
    }
    assert RecordsIn(rs, large);
    assert ViewRecords(rs, large) == ViewRecords(rs, small);
  }

  method NewOption(p: Prefix) returns (option: SubnetOption)
    requires p.Valid()
    ensures fresh(option) && SubnetView(option.family, option.netmask, option.address) == SubnetFor(p)
  {
    option := new SubnetOption(0, 0, []);
    option.Fill(p);
  }

  /** Records extended by one new option, on records alone. */
  method ExtendWithNew(rs: seq<Record>, record: OptRecord, p: Prefix, ghost at: nat, ghost repr: set<object>)
      returns (ghost larger: set<object>)
    requires RecordsIn(rs, repr) && Unshared(rs, repr) && at < |rs| && rs[at] == Opt(record) && record in repr && p.Valid()
    modifies record
    ensures repr <= larger && fresh(larger - repr) && RecordsIn(rs, larger)
    ensures var v := old(ViewRecords(rs, repr)); ViewRecords(rs, larger) == v[at := OptView(v[at].options + [SubnetFor(p)])]
  {
    var option := NewOption(p);
    larger := repr + {option};
    LargerReprs(rs, repr, larger);
    ExtendRecord(rs, record, option, at, larger);
  }

  method Extend(m: DnsMessage, record: OptRecord, p: Prefix, ghost at: nat)
    requires m.Valid() && Unshared(m.extra, m.Repr) && p.Valid()
    requires at < |m.extra| && m.extra[at] == Opt(record) && record in m.Repr
    modifies m`Repr, record
    ensures m.Valid() && fresh(m.Repr - old(m.Repr))
    ensures var v := old(m.View());
            m.View() == v.(extra := v.extra[at := OptView(v.extra[at].options + [SubnetFor(p)])])
  {
    ghost var larger := ExtendWithNew(m.extra, record, p, at, m.Repr);
    m.Reaches(larger);
  }

  method NewRecord(p: Prefix) returns (record: OptRecord, ghost made: set<object>)
    requires p.Valid()
    ensures fresh(made) && RecordIn(Opt(record), made) && ViewRecord(Opt(record), made) == OptView([SubnetFor(p)])
  {
    var option := new SubnetOption(0, 0, []);
    option.Fill(p);
    record := new OptRecord([Subnet(option)]);
    made := {option, record};
    assert ViewOptions(record.options, made) == [SubnetFor(p)];
  }

  /** A message with one more OPT record, sharing all the others with the caller's. */
  method AddRecord(m: DnsMessage, p: Prefix) returns (out: DnsMessage)
    requires m.Valid() && p.Valid()
    ensures out.Valid() && fresh(out)
    ensures out.View() == m.View().(extra := m.View().extra + [OptView([SubnetFor(p)])])
  {
    var record;
    ghost var added;
    record, added := NewRecord(p);
    OneMoreView(m.extra, m.Repr, Opt(record), added);
    out := new DnsMessage(m.question, m.extra + [Opt(record)], m.Repr + added);
  }

  /** Setting the subnet.  With `clone` nothing that existed before is written: the message is copied
      whole before its record is changed.  Without it the message must share nothing, and is changed. */
  method SetSubnet(m: DnsMessage, p: Prefix, clone: bool) returns (out: DnsMessage)
    requires m.Valid() && p.Valid()
    requires !clone ==> Unshared(m.extra, m.Repr)
    modifies if clone then {} else {m} + m.Repr
    ensures out.Valid() && out.View() == WithSubnet(old(m.View()), p)
    decreases clone
  {
    var record, option, at, place := Find(m);
    if record == null {
      out := AddRecord(m, p);
    } else if clone {
      var copy := Copy(m);
      out := SetSubnet(copy, p, false);
    } else {
      SetInPlace(m, p, record, option, at, place);
      out := m;
    }
  }

  method SetInPlace(m: DnsMessage, p: Prefix, record: OptRecord, option: SubnetOption?, ghost at: nat, ghost place: nat)
    requires m.Valid() && p.Valid() && Unshared(m.extra, m.Repr)
    requires at < |m.extra| && m.extra[at] == Opt(record)
    requires option != null ==>
               && FirstRecord(m.View().extra) == Some(at)
               && FirstSubnet(ViewOptions(record.options, m.Repr)) == Some(place)
               && place < |record.options| && record.options[place] == Subnet(option)
    requires option == null ==> FirstRecord(m.View().extra).None? && at == |m.extra| - 1
    modifies {m} + m.Repr
    ensures m.Valid() && m.View() == WithSubnet(old(m.View()), p)
  {
    assert RecordIn(m.extra[at], m.Repr);
    if option != null {
      Replace(m, option, p, at, place);
    } else {
      Extend(m, record, p, at);
    }
  }

  // ----- removing -----

  method HasCode(record: OptRecord, ghost repr: set<object>) returns (found: bool)
    requires record in repr && OptionsIn(record.options, repr)
    ensures found <==> DropSubnets(ViewOptions(record.options, repr)) != ViewOptions(record.options, repr)
  {
    ghost var view := ViewOptions(record.options, repr);
    for i := 0 to |record.options|
      invariant forall k | 0 <= k < i :: view[k].Code() != SUBNET_CODE
    {
      var code := if record.options[i].Subnet? then SUBNET_CODE else record.options[i].code;
      if code == SUBNET_CODE {
        assert view[i].Code() == SUBNET_CODE && view[i] in view && view[i] !in DropSubnets(view);
        return true;
      }
    }
    assert forall o | o in view :: o.Code() != SUBNET_CODE;
    return false;
  }

  lemma OneMoreOption(os: seq<EdnsOption>, o: EdnsOption, repr: set<object>)
    requires OptionsIn(os, repr) && (o.Subnet? ==> o.option in repr)
    ensures OptionsIn(os + [o], repr) && ViewOptions(os + [o], repr) == ViewOptions(os, repr) + [ViewOption(o, repr)]
  {
    assert (os + [o])[..|os|] == os;
  }

  lemma DropNext(view: seq<OptionView>, i: nat)
    requires i < |view|
    ensures DropSubnets(view[..i + 1]) == DropSubnets(view[..i]) + if view[i].Code() == SUBNET_CODE then [] else [view[i]]
  {
    assert view[..i + 1][..i] == view[..i];
  }

  /** The options without subnets. */
  method Kept(all: seq<EdnsOption>, ghost repr: set<object>) returns (kept: seq<EdnsOption>)
    requires OptionsIn(all, repr)
    ensures OptionsIn(kept, repr) && ViewOptions(kept, repr) == DropSubnets(ViewOptions(all, repr))
  {
    ghost var view := ViewOptions(all, repr);
    kept := [];
    for i := 0 to |all|
      invariant OptionsIn(kept, repr) && ViewOptions(kept, repr) == DropSubnets(view[..i])
    {
      var code := if all[i].Subnet? then SUBNET_CODE else all[i].code;
      DropNext(view, i);
      if code != SUBNET_CODE {
        OneMoreOption(kept, all[i], repr);
        kept := kept + [all[i]];
      }
    }
    assert view[..|all|] == view;
  }

  /** Filtering the options of a record in place, in a message that shares nothing. */
  method Filter(record: OptRecord, ghost repr: set<object>)
    requires record in repr && OptionsIn(record.options, repr)
    modifies record
    ensures OptionsIn(record.options, repr)
    ensures ViewOptions(record.options, repr) == DropSubnets(old(ViewOptions(record.options, repr)))
  {
    var kept := Kept(record.options, repr);
    ghost var v := ViewOptions(kept, repr);
    record.options := kept;
    assert ViewOptions(kept, repr) == v by {
      forall i | 0 <= i < |kept| ensures ViewOptions(kept, repr)[i] == v[i] { }
    }
  }

  /** OPT records stay apart while their options are filtered. */
  ghost predicate RecordsApart(rs: seq<Record>) {
    forall i, j | 0 <= i < j < |rs| && rs[i].Opt? && rs[j].Opt? :: rs[i].record != rs[j].record
  }

  lemma UnsharedIsApart(rs: seq<Record>, repr: set<object>)
    requires RecordsIn(rs, repr) && Unshared(rs, repr)
    ensures RecordsApart(rs)
  {
    forall i, j | 0 <= i < j < |rs| && rs[i].Opt? && rs[j].Opt? ensures rs[i].record != rs[j].record {
      assert Separate(rs[i], rs[j]);
    }
  }

  method FilterAt(rs: seq<Record>, i: nat, ghost repr: set<object>)
    requires RecordsIn(rs, repr) && RecordsApart(rs) && i < |rs|
    modifies if rs[i].Opt? then {rs[i].record} else {}
    ensures RecordsIn(rs, repr)
    ensures ViewRecords(rs, repr) == old(ViewRecords(rs, repr))[i := DropFrom(old(ViewRecords(rs, repr)[i]))]
  {
    ghost var v := ViewRecords(rs, repr);
    if rs[i].Opt? {
      assert RecordIn(rs[i], repr);
      Filter(rs[i].record, repr);
      assert ViewRecord(rs[i], repr) == DropFrom(v[i]);
      forall k | 0 <= k < |rs| && k != i ensures RecordIn(rs[k], repr) && ViewRecord(rs[k], repr) == v[k] {
        if rs[k].Opt? { assert ViewOptions(rs[k].record.options, repr) == v[k].options; }
      }
    }
    assert ViewRecords(rs, repr) == v[i := DropFrom(v[i])];
  }

  ghost function DropUpTo(v: seq<RecordView>, n: nat): (w: seq<RecordView>)
    requires n <= |v|
    ensures |w| == |v| && forall i | 0 <= i < |v| :: w[i] == if i < n then DropFrom(v[i]) else v[i]
    ensures n == |v| ==> w == Dropped(v)
  {
    seq(|v|, i requires 0 <= i < |v| => if i < n then DropFrom(v[i]) else v[i])
  }

  method FilterAll(rs: seq<Record>, ghost repr: set<object>)
    requires RecordsIn(rs, repr) && RecordsApart(rs)
    modifies repr
    ensures RecordsIn(rs, repr)
    ensures ViewRecords(rs, repr) == Dropped(old(ViewRecords(rs, repr)))
  {
    ghost var v := ViewRecords(rs, repr);
    for i := 0 to |rs|
      invariant RecordsIn(rs, repr) && ViewRecords(rs, repr) == DropUpTo(v, i)
    {
      assert RecordIn(rs[i], repr);
      FilterAt(rs, i, repr);
      assert DropUpTo(v, i)[i := DropFrom(v[i])] == DropUpTo(v, i + 1);
    }
  }

  method HasAnyCode(m: DnsMessage) returns (found: bool)
    requires m.Valid()
    ensures found <==> WithoutSubnet(m.View()) != m.View()
  {
    ghost var v := m.View();
    for i := 0 to |m.extra|
      invariant forall k | 0 <= k < i :: DropFrom(v.extra[k]) == v.extra[k]
    {
      assert RecordIn(m.extra[i], m.Repr) && v.extra[i] == ViewRecord(m.extra[i], m.Repr);
      if !m.extra[i].Opt? {
        continue;
      }
      found := HasCode(m.extra[i].record, m.Repr);
      if found {
        assert WithoutSubnet(v).extra[i] == DropFrom(v.extra[i]) != v.extra[i];
        return;
      }
    }
    assert WithoutSubnet(v).extra == v.extra;
    found := false;
  }

  /** Removing the subnet: the caller's message itself when there is nothing to remove. */
  method RemoveSubnet(m: DnsMessage) returns (out: DnsMessage)
    requires m.Valid()
    ensures out.Valid() && out.View() == WithoutSubnet(m.View())
    ensures if WithoutSubnet(m.View()) == m.View() then out == m else fresh(out)
  {
    var found := HasAnyCode(m);
    if !found {
      return m;
    }
    out := CopyFiltered(m);
  }

  method CopyFiltered(m: DnsMessage) returns (out: DnsMessage)
    requires m.Valid()
    ensures fresh(out) && out.Valid() && out.View() == WithoutSubnet(m.View())
  {
    var extra;
    ghost var made;
    extra, made := CopyRecords(m.extra, m.Repr);
    UnsharedIsApart(extra, made);
    FilterAll(extra, made);
    out := new DnsMessage(m.question, extra, made);
  }

  /** Preparing a message for sending writes nothing that existed before the call. */
  method Prepare(m: DnsMessage, options: QueryOptions, default: Prefix) returns (out: DnsMessage)
    requires m.Valid()
    ensures out.Valid() && out.View() == Prepared(m.View(), options, default)
  {
    if options.remove {
      out := RemoveSubnet(m);
      return;
    }
    var subnet := options.subnet;
    if !subnet.Valid() {
      subnet := default;
    }
    out := m;
    if subnet.Valid() {
      out := SetSubnet(m, subnet, true);
    }
  }

  /** The subnet part of the cache key. */
  method Key(m: DnsMessage, options: QueryOptions, default: Prefix) returns (p: Prefix)
    requires m.Valid()
    ensures p == KeySubnet(m.View(), options, default)
  {
    p := NO_PREFIX;
    if !options.remove {
      p := options.subnet;
      if !p.Valid() {
        p := default;
      }
      if !p.Valid() {
        p := Read(m);
      }
    }
  }
}
