/**
 Log entries on the wire: XADD takes alternating names and values, and a worker reads them back into a
 record. A client of Redis may hand replies over as lists or as objects.
 */
module WalEntries {
  import opened Base
  import opened Decimal

  const TEX: nat := 1
  const GROUP: string := "g-sync-updates"

  datatype Attr = Attr(docName: string, docType: nat, projectId: string, docIntId: string, docShowName: string, src: string)

  type Fields = map<string, string>

  function OrElse(s: string, default: string): string {
    if s == "" then default else s
  }

  /** The names and values appended for an update. */
  function WireFields(attr: Attr, update: string): seq<string> {
    ["docName", attr.docName] + (["projectId", attr.projectId] + (["docIntId", attr.docIntId]
      + (["docShowName", attr.docShowName] + (["docType", ToDecimal(attr.docType)]
      + (["src", OrElse(attr.src, "wal")] + (["update", update] + []))))))
  }

  /** Assigning alternating names and values in order; a name without a value is ignored. */
  function Assigned(fields: Fields, flat: seq<string>): Fields
    decreases |flat|
  {
    if |flat| < 2 then fields else Assigned(fields[flat[0] := flat[1]], flat[2..])
  }

  /** The loop of parseRawMsgs over one message. */
  method ParseFlat(flat: seq<string>) returns (fields: Fields)
    ensures fields == Assigned(map[], flat)
  {
    fields := map[];
    var i := 0;
    while i + 1 < |flat|
      invariant i <= |flat| && Assigned(fields, flat[i..]) == Assigned(map[], flat)
    {
      assert flat[i..][2..] == flat[i + 2..];
      fields := fields[flat[i] := flat[i + 1]];
      i := i + 2;
    }
  }

  /** A field has the value given last under its name, and every field was given. */
  lemma {:induction false} LastValueWins(fields: Fields, flat: seq<string>, name: string)
    ensures name in Assigned(fields, flat) ==>
              || (name in fields && Assigned(fields, flat)[name] == fields[name]
                  && forall i :: 0 <= 2 * i && 2 * i + 1 < |flat| ==> flat[2 * i] != name)
              || (exists i :: 0 <= 2 * i && 2 * i + 1 < |flat| && flat[2 * i] == name
                    && Assigned(fields, flat)[name] == flat[2 * i + 1]
                    && forall k :: i < k && 2 * k + 1 < |flat| ==> flat[2 * k] != name)
    decreases |flat|
  {
    if |flat| < 2 {
    } else {
      var rest, next := flat[2..], fields[flat[0] := flat[1]];
      LastValueWins(next, rest, name);
      if name in Assigned(fields, flat) {
        if i :| 0 <= 2 * i && 2 * i + 1 < |rest| && rest[2 * i] == name
                && Assigned(next, rest)[name] == rest[2 * i + 1]
                && forall k :: i < k && 2 * k + 1 < |rest| ==> rest[2 * k] != name {
          assert flat[2 * (i + 1)] == rest[2 * i] && flat[2 * (i + 1) + 1] == rest[2 * i + 1];
          forall k | i + 1 < k && 2 * k + 1 < |flat| ensures flat[2 * k] != name {
            assert flat[2 * k] == rest[2 * (k - 1)];
          }
        } else {
          forall k | 0 < k && 2 * k + 1 < |flat| ensures flat[2 * k] != name {
            assert flat[2 * k] == rest[2 * (k - 1)];
          }
          if flat[0] == name { assert flat[2 * 0] == name; }
        }
      }
    }
  }

  function Get(fields: Fields, name: string): string {
    if name in fields then fields[name] else ""
  }

  /** Number(text) || TEX: what is no number counts as zero does. */
  function DocType(text: string): nat {
    if text != "" && AllDigits(text) && FromDecimal(text) != 0 then FromDecimal(text) else TEX
  }

  function ParseFields(fields: Fields): Attr {
    Attr(Get(fields, "docName"), DocType(Get(fields, "docType")), Get(fields, "projectId"), Get(fields, "docIntId"),
         Get(fields, "docShowName"), OrElse(Get(fields, "src"), "wal-worker"))
  }

  lemma AssignPair(fields: Fields, name: string, value: string, rest: seq<string>)
    ensures Assigned(fields, [name, value] + rest) == Assigned(fields[name := value], rest)
  {
    assert ([name, value] + rest)[2..] == rest;
  }

  lemma WireFieldsAssigned(attr: Attr, update: string)
    ensures Assigned(map[], WireFields(attr, update))
         == map["docName" := attr.docName, "projectId" := attr.projectId, "docIntId" := attr.docIntId,
                "docShowName" := attr.docShowName, "docType" := ToDecimal(attr.docType),
                "src" := OrElse(attr.src, "wal"), "update" := update]
  {
    var f6 := ["update", update] + [];
    var f5 := ["src", OrElse(attr.src, "wal")] + f6;
    var f4 := ["docType", ToDecimal(attr.docType)] + f5;
    var f3 := ["docShowName", attr.docShowName] + f4;
    var f2 := ["docIntId", attr.docIntId] + f3;
    var f1 := ["projectId", attr.projectId] + f2;
    var m: Fields := map[];
    AssignPair(m, "docName", attr.docName, f1);
    m := m["docName" := attr.docName];
    AssignPair(m, "projectId", attr.projectId, f2);
    m := m["projectId" := attr.projectId];
    AssignPair(m, "docIntId", attr.docIntId, f3);
    m := m["docIntId" := attr.docIntId];
    AssignPair(m, "docShowName", attr.docShowName, f4);
    m := m["docShowName" := attr.docShowName];
    AssignPair(m, "docType", ToDecimal(attr.docType), f5);
    m := m["docType" := ToDecimal(attr.docType)];
    AssignPair(m, "src", OrElse(attr.src, "wal"), f6);
    m := m["src" := OrElse(attr.src, "wal")];
    AssignPair(m, "update", update, []);
  }

  /** A worker reads the update and the document it was appended for; type 0 is read as TEX, no source as "wal". */
  lemma WireRoundTrip(attr: Attr, update: string)
    ensures var fields := Assigned(map[], WireFields(attr, update));
            && Get(fields, "update") == update
            && ParseFields(fields) == attr.(docType := if attr.docType == 0 then TEX else attr.docType,
                                            src := OrElse(attr.src, "wal"))
            && (ParseFields(fields) == attr <==> attr.docType != 0 && attr.src != "")
  {
    WireFieldsAssigned(attr, update);
    DecimalRoundTrip(attr.docType);
  }

  /** An element of the XINFO GROUPS reply. */
  datatype GroupReply = Flat(values: seq<string>) | Object(fields: Fields) | Other

  function GroupFields(reply: GroupReply): Fields {
    match reply
    case Flat(values) => Assigned(map[], values)
    case Object(fields) => fields
    case Other => map[]
  }

  /** The first group of the worker's name, in either shape. */
  method FindConsumerGroup(groups: seq<GroupReply>) returns (found: Option<Fields>)
    ensures found.None? <==> forall i :: 0 <= i < |groups| ==> Get(GroupFields(groups[i]), "name") != GROUP
    ensures found.Some? ==> exists i :: 0 <= i < |groups| && found.value == GroupFields(groups[i])
                              && Get(found.value, "name") == GROUP
                              && forall k :: 0 <= k < i ==> Get(GroupFields(groups[k]), "name") != GROUP
  {
    for i := 0 to |groups|
      invariant forall k :: 0 <= k < i ==> Get(GroupFields(groups[k]), "name") != GROUP
    {
      match groups[i] {
        case Flat(values) =>
          var fields := ParseFlat(values);
          if "name" in fields && fields["name"] == GROUP { return Some(fields); }
        case Object(fields) =>
          if "name" in fields && fields["name"] == GROUP { return Some(fields); }
        case Other =>
      }
    }
    found := None;
  }
}
