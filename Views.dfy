/** The snapshot-building half of the views plugin's configuration load:
    from the decoded client ACLs and record sets to the tables the query path
    reads (`ClientACLs` and `ClientZones`).

    Two library calls are parameters of the model and nothing is assumed
    about them: `parseCIDR` stands for net.ParseCIDR (None where Go returns an
    error) and `normalize` for plugin.Host(...).Normalize(). */
module Views {
  import opened Wrappers
  import opened LastWins

  type uint16 = x: int | 0 <= x < 0x1_0000
  type uint32 = x: int | 0 <= x < 0x1_0000_0000

  /** net.IPNet: a network number and its mask, as bytes. */
  datatype IPNet = IPNet(ip: seq<bv8>, mask: seq<bv8>)

  /** One entry of the client-ACL document: a view name and its CIDR
      prefixes as written. */
  datatype RawClientACL = RawClientACL(name: string, cidrPrefixes: seq<string>)

  /** One record of a record set, as written in the record document. */
  datatype RawZoneRecord = RawZoneRecord(name: string, ttl: uint32, rrType: string, value: string)

  /** One record set of the record document. */
  datatype RawRecord = RawRecord(name: string, records: seq<RawZoneRecord>)

  /** A view's client ACL: its name and the prefixes that parsed. */
  datatype ClientACL = ClientACL(name: string, cidrNets: seq<IPNet>)

  /** One stored record. */
  datatype Zone = Zone(name: string, ttl: uint32, rrType: uint16, value: string)

  /** One record set: every normalized name in input order, and the record
      kept for each name. */
  datatype Zones = Zones(names: seq<string>, z: map<string, Zone>)

  // Resource-record type codes (RFC 1035 section 3.2.2, RFC 3596 section 2.1).
  const TypeA: uint16 := 1
  const TypeCNAME: uint16 := 5
  const TypeTXT: uint16 := 16
  const TypeAAAA: uint16 := 28

  // ---------------------------------------------------------------------
  // Record types

  /** Upper case of one character (ASCII letters only). */
  function ToUpperChar(c: char): char {
    if 'a' <= c <= 'z' then (c as int - 32) as char else c
  }

  /** strings.ToUpper, on ASCII letters. */
  function ToUpper(s: string): string {
    seq(|s|, i requires 0 <= i < |s| => ToUpperChar(s[i]))
  }

  /** The type code of a record's type string: the upper-cased string is
      matched against the four supported names; anything else is 0. */
  function RRType(t: string): (code: uint16)
    ensures code == TypeA <==> ToUpper(t) == "A"
    ensures code == TypeAAAA <==> ToUpper(t) == "AAAA"
    ensures code == TypeCNAME <==> ToUpper(t) == "CNAME"
    ensures code == TypeTXT <==> ToUpper(t) == "TXT"
    ensures code == 0 <==> ToUpper(t) !in {"A", "AAAA", "CNAME", "TXT"}
  {
    match ToUpper(t)
    case "A" => TypeA
    case "AAAA" => TypeAAAA
    case "CNAME" => TypeCNAME
    case "TXT" => TypeTXT
    case _ => 0
  }

  /** The type code ignores the case of ASCII letters. */
  lemma RRTypeIgnoresCase(t: string, t': string)
    requires |t| == |t'|
    requires forall i :: 0 <= i < |t| ==> ToUpperChar(t[i]) == ToUpperChar(t'[i])
    ensures RRType(t) == RRType(t')
  {
    assert ToUpper(t) == ToUpper(t');
  }

  /** Exactly "a" and "A" name an A record. */
  lemma RRTypeA(t: string)
    ensures RRType(t) == TypeA <==> t == "a" || t == "A"
  {
    if RRType(t) == TypeA {
      assert ToUpper(t)[0] == 'A';
      assert t == [t[0]];
    }
  }

  /** Lower-case spellings of the four supported names are recognised, and
      a type outside the four (MX here) is stored with code 0. */
  lemma RRTypeLowerCase()
    ensures RRType("aaaa") == TypeAAAA
    ensures RRType("cname") == TypeCNAME
    ensures RRType("Txt") == TypeTXT
    ensures RRType("mx") == 0
  {
    assert ToUpper("aaaa") == "AAAA";
    assert ToUpper("cname") == "CNAME";
    assert ToUpper("Txt") == "TXT";
    assert ToUpper("mx") == "MX";
  }

  // ---------------------------------------------------------------------
  // Client ACLs

  /** The prefixes that parse, in their original order. */
  function ValidNets(prefixes: seq<string>, parseCIDR: string -> Option<IPNet>): (nets: seq<IPNet>)
    ensures |nets| <= |prefixes|
  {
    if prefixes == [] then []
    else
      var init := ValidNets(prefixes[..|prefixes| - 1], parseCIDR);
      match parseCIDR(prefixes[|prefixes| - 1])
      case Some(n) => init + [n]
      case None => init
  }

  /** Filtering distributes over concatenation: what one part of the list
      contributes does not depend on the other part. */
  lemma {:induction false} ValidNetsAppend(a: seq<string>, b: seq<string>, parseCIDR: string -> Option<IPNet>)
    ensures ValidNets(a + b, parseCIDR) == ValidNets(a, parseCIDR) + ValidNets(b, parseCIDR)
  {
    if b == [] {
      assert a + b == a;
    } else {
      var b' := b[..|b| - 1];
      assert (a + b)[..|a + b| - 1] == a + b';
      ValidNetsAppend(a, b', parseCIDR);
    }
  }

  /** A prefix that does not parse is skipped and changes nothing else. */
  lemma InvalidPrefixSkipped(a: seq<string>, p: string, b: seq<string>, parseCIDR: string -> Option<IPNet>)
    requires parseCIDR(p) == None
    ensures ValidNets(a + [p] + b, parseCIDR) == ValidNets(a + b, parseCIDR)
  {
    ValidNetsAppend(a + [p], b, parseCIDR);
    ValidNetsAppend(a, [p], parseCIDR);
    ValidNetsAppend(a, b, parseCIDR);
    assert [p][..0] == [];
  }

  /** A prefix that parses contributes its network, in its place. */
  lemma ValidPrefixKept(a: seq<string>, p: string, b: seq<string>, parseCIDR: string -> Option<IPNet>)
    requires parseCIDR(p).Some?
    ensures ValidNets(a + [p] + b, parseCIDR)
         == ValidNets(a, parseCIDR) + [parseCIDR(p).value] + ValidNets(b, parseCIDR)
  {
    ValidNetsAppend(a + [p], b, parseCIDR);
    ValidNetsAppend(a, [p], parseCIDR);
    assert [p][..0] == [];
  }

  /** Every kept network is the parse of some prefix, and every parse is
      kept. */
  lemma {:induction false} ValidNetsMembers(prefixes: seq<string>, parseCIDR: string -> Option<IPNet>, n: IPNet)
    ensures n in ValidNets(prefixes, parseCIDR)
        <==> exists i :: 0 <= i < |prefixes| && parseCIDR(prefixes[i]) == Some(n)
  {
    if prefixes != [] {
      var init := prefixes[..|prefixes| - 1];
      ValidNetsMembers(init, parseCIDR, n);
      if exists i :: 0 <= i < |prefixes| && parseCIDR(prefixes[i]) == Some(n) {
        var i :| 0 <= i < |prefixes| && parseCIDR(prefixes[i]) == Some(n);
        if i < |init| {
          assert init[i] == prefixes[i];
        }
      }
    }
  }

  /** A client whose prefixes all fail to parse gets an empty list. */
  lemma {:induction false} AllInvalidGivesNoNets(prefixes: seq<string>, parseCIDR: string -> Option<IPNet>)
    requires forall i :: 0 <= i < |prefixes| ==> parseCIDR(prefixes[i]).None?
    ensures ValidNets(prefixes, parseCIDR) == []
  {
    if prefixes != [] {
      AllInvalidGivesNoNets(prefixes[..|prefixes| - 1], parseCIDR);
    }
  }

  /** The inner loop over one client's prefixes. */
  method ParsePrefixes(prefixes: seq<string>, parseCIDR: string -> Option<IPNet>) returns (cidrNets: seq<IPNet>)
    ensures cidrNets == ValidNets(prefixes, parseCIDR)
  {
    cidrNets := [];
    for i := 0 to |prefixes|
      invariant cidrNets == ValidNets(prefixes[..i], parseCIDR)
    {
      assert prefixes[..i + 1][..i] == prefixes[..i];
      var parsed := parseCIDR(prefixes[i]);
      if parsed.None? {
        continue;
      }
      cidrNets := cidrNets + [parsed.value];
    }
    assert prefixes[..|prefixes|] == prefixes;
  }

  // ---------------------------------------------------------------------
  // Record sets

  /** The record stored for one raw record. */
  function ZoneOf(rec: RawZoneRecord, normalize: string -> string): (rr: Zone)
    ensures rr.name == normalize(rec.name) && rr.value == normalize(rec.value) && rr.ttl == rec.ttl
    ensures rr.rrType in {0, TypeA, TypeAAAA, TypeCNAME, TypeTXT}
  {
    Zone(normalize(rec.name), rec.ttl, RRType(rec.rrType), normalize(rec.value))
  }

  /** The map writes of one record set, in input order. */
  function ZoneWrites(records: seq<RawZoneRecord>, normalize: string -> string): seq<(string, Zone)> {
    seq(|records|, i requires 0 <= i < |records| => (normalize(records[i].name), ZoneOf(records[i], normalize)))
  }

  /** The normalized names of one record set, in input order. */
  function NormalizedNames(records: seq<RawZoneRecord>, normalize: string -> string): seq<string> {
    seq(|records|, i requires 0 <= i < |records| => normalize(records[i].name))
  }

  /** One record set after the load. */
  function ZonesOf(records: seq<RawZoneRecord>, normalize: string -> string): (zones: Zones)
    ensures |zones.names| == |records|
    ensures forall key :: key in zones.z ==> key in zones.names && zones.z[key].name == key
  {
    var names, writes := NormalizedNames(records, normalize), ZoneWrites(records, normalize);
    assert forall i :: 0 <= i < |records| ==> writes[i].0 == names[i];
    assert forall i :: 0 <= i < |records| ==> writes[i].1 == ZoneOf(records[i], normalize);
    Zones(names, Overwrite(writes))
  }

  /** Adding one raw record appends its name and overwrites its entry. */
  lemma ZonesOfSnoc(records: seq<RawZoneRecord>, r: RawZoneRecord, normalize: string -> string)
    ensures ZonesOf(records + [r], normalize)
         == var zs := ZonesOf(records, normalize);
            var rr := ZoneOf(r, normalize);
            Zones(zs.names + [rr.name], zs.z[rr.name := rr])
  {
    var rr := ZoneOf(r, normalize);
    assert NormalizedNames(records + [r], normalize) == NormalizedNames(records, normalize) + [rr.name];
    assert ZoneWrites(records + [r], normalize) == ZoneWrites(records, normalize) + [(rr.name, rr)];
    OverwriteSnoc(ZoneWrites(records, normalize), rr.name, rr);
  }

  /** `Names` has one element per raw record, in order, duplicates kept;
      the keys of `Z` are exactly the elements of `Names`; and every record is
      stored under its own name. */
  lemma ZonesKeysAreNames(records: seq<RawZoneRecord>, normalize: string -> string, key: string)
    ensures |ZonesOf(records, normalize).names| == |records|
    ensures forall i :: 0 <= i < |records| ==> ZonesOf(records, normalize).names[i] == normalize(records[i].name)
    ensures key in ZonesOf(records, normalize).z <==> key in ZonesOf(records, normalize).names
    ensures key in ZonesOf(records, normalize).z ==> ZonesOf(records, normalize).z[key].name == key
  {
    var writes := ZoneWrites(records, normalize);
    var names := NormalizedNames(records, normalize);
    OverwriteIsLastWrite(writes, key);
    if key in names {
      var i :| 0 <= i < |names| && names[i] == key;
      assert writes[i].0 == key;
    }
  }

  /** Last write wins within a record set: the record kept for a name is the
      last raw record whose name normalizes to it, with its name and value
      normalized, its TTL copied and its type mapped to a code. */
  lemma ZonesLastWins(records: seq<RawZoneRecord>, normalize: string -> string, j: nat)
    requires j < |records|
    requires forall k :: j < k < |records| ==> normalize(records[k].name) != normalize(records[j].name)
    ensures var key := normalize(records[j].name);
            && key in ZonesOf(records, normalize).z
            && ZonesOf(records, normalize).z[key]
               == Zone(key, records[j].ttl, RRType(records[j].rrType), normalize(records[j].value))
  {
    var writes := ZoneWrites(records, normalize);
    assert forall k :: j < k < |writes| ==> writes[k].0 != writes[j].0;
    OverwriteLastWins(writes, j);
  }

  /** The inner loop over one record set's records. */
  method BuildZones(records: seq<RawZoneRecord>, normalize: string -> string) returns (zones: Zones)
    ensures zones == ZonesOf(records, normalize)
  {
    zones := Zones([], map[]);
    for i := 0 to |records|
      invariant zones == ZonesOf(records[..i], normalize)
    {
      var rawRecord := records[i];
      var t := ToUpper(rawRecord.rrType);
      var rrtype: uint16 := 0;
      if t == "A" {
        rrtype := TypeA;
      } else if t == "AAAA" {
        rrtype := TypeAAAA;
      } else if t == "CNAME" {
        rrtype := TypeCNAME;
      } else if t == "TXT" {
        rrtype := TypeTXT;
      }
      var rr := Zone(normalize(rawRecord.name), rawRecord.ttl, rrtype, normalize(rawRecord.value));
      zones := Zones(zones.names + [rr.name], zones.z[rr.name := rr]);
      ZonesOfSnoc(records[..i], rawRecord, normalize);
      assert records[..i + 1] == records[..i] + [rawRecord];
    }
    assert records[..|records|] == records;
  }

  /** The writes into `ClientZones`, one per record set, in input order. */
  function TableWrites(rawRecords: seq<RawRecord>, normalize: string -> string): seq<(string, Zones)> {
    seq(|rawRecords|, i requires 0 <= i < |rawRecords| => (rawRecords[i].name, ZonesOf(rawRecords[i].records, normalize)))
  }

  /** `ClientZones` after the load. */
  function ZoneTable(rawRecords: seq<RawRecord>, normalize: string -> string): (table: map<string, Zones>)
    ensures forall name :: name in table ==>
              exists i :: 0 <= i < |rawRecords| && rawRecords[i].name == name
                       && table[name] == ZonesOf(rawRecords[i].records, normalize)
  {
    Overwrite(TableWrites(rawRecords, normalize))
  }

  /** The table has a key for each record-set name in the input and no
      other. */
  lemma ZoneTableKeys(rawRecords: seq<RawRecord>, normalize: string -> string, name: string)
    ensures name in ZoneTable(rawRecords, normalize)
        <==> exists i :: 0 <= i < |rawRecords| && rawRecords[i].name == name
  {
    var writes := TableWrites(rawRecords, normalize);
    OverwriteKeys(writes, name);
    if exists i :: 0 <= i < |rawRecords| && rawRecords[i].name == name {
      var i :| 0 <= i < |rawRecords| && rawRecords[i].name == name;
      assert writes[i].0 == name;
    }
  }

  /** A later record set with the same name replaces an earlier one
      wholesale: the table holds exactly the records of the last set with
      that name, with nothing merged in from earlier ones. */
  lemma ZoneTableLastWins(rawRecords: seq<RawRecord>, normalize: string -> string, i: nat)
    requires i < |rawRecords|
    requires forall j :: i < j < |rawRecords| ==> rawRecords[j].name != rawRecords[i].name
    ensures rawRecords[i].name in ZoneTable(rawRecords, normalize)
    ensures ZoneTable(rawRecords, normalize)[rawRecords[i].name] == ZonesOf(rawRecords[i].records, normalize)
  {
    var writes := TableWrites(rawRecords, normalize);
    assert forall j :: i < j < |writes| ==> writes[j].0 != writes[i].0;
    OverwriteLastWins(writes, i);
  }

  // ---------------------------------------------------------------------
  // The plugin state

  /** The part of the plugin's state that a load rebuilds. */
  class Views {
    var clientACLs: seq<ClientACL>
    var clientZones: map<string, Zones>

    /** Before the first load both tables are empty. */
    constructor ()
      ensures clientACLs == [] && clientZones == map[]
    {
      clientACLs := [];
      clientZones := map[];
    }

    /** The table-building part of loadConfig, from the raw lists that the
        fetch produced. Both tables are rebuilt from empty: nothing of the
        previous state survives, whatever the inputs. */
    method LoadConfig(rawClients: seq<RawClientACL>, rawRecords: seq<RawRecord>,
                      parseCIDR: string -> Option<IPNet>, normalize: string -> string)
      modifies this
      ensures |clientACLs| == |rawClients|
      ensures forall i :: 0 <= i < |rawClients| ==>
                clientACLs[i] == ClientACL(rawClients[i].name, ValidNets(rawClients[i].cidrPrefixes, parseCIDR))
      ensures clientZones == ZoneTable(rawRecords, normalize)
    {
      clientACLs := [];
      for i := 0 to |rawClients|
        invariant |clientACLs| == i
        invariant forall k :: 0 <= k < i ==>
                    clientACLs[k] == ClientACL(rawClients[k].name, ValidNets(rawClients[k].cidrPrefixes, parseCIDR))
      {
        var client := rawClients[i];
        var cidrNets := ParsePrefixes(client.cidrPrefixes, parseCIDR);
        clientACLs := clientACLs + [ClientACL(client.name, cidrNets)];
      }

      ghost var acls := clientACLs;
      clientZones := map[];
      for i := 0 to |rawRecords|
        invariant clientACLs == acls
        invariant clientZones == ZoneTable(rawRecords[..i], normalize)
      {
        var r := rawRecords[i];
        var zones := BuildZones(r.records, normalize);
        clientZones := clientZones[r.name := zones];
        assert TableWrites(rawRecords[..i + 1], normalize) == TableWrites(rawRecords[..i], normalize) + [(r.name, zones)];
        OverwriteSnoc(TableWrites(rawRecords[..i], normalize), r.name, zones);
      }
      assert rawRecords[..|rawRecords|] == rawRecords;
    }
  }
}
