/** Classification of one product submission: what the reply proves about each member. */
module Submissions {
  import opened Common
  import opened Publication

  /** A decoded JSON value; an object's fields come in no particular order. */
  datatype Json =
    | Object(fields: seq<Field>)
    | Array(items: seq<Json>)
    | Text(value: string)
    | Scalar

  datatype Field = Field(name: string, value: Json)

  /** What the transport call came back with; a `delivery` of None is a value outside the three states. */
  datatype Reply =
    | Envelope(error: bool, additional: Json)
    | Failed(code: ErrorCode, delivery: Option<Delivery>, status: int)
    | Unclassified
    | Unsupported

  // ---------------------------------------------------------------- names in an error document

  /** Every object key and every string occurring anywhere in the document. */
  function Names(doc: Json): set<string> {
    match doc
    case Object(fields) => FieldNames(fields)
    case Array(items) => ItemNames(items)
    case Text(value) => {value}
    case Scalar => {}
  }

  function FieldNames(fields: seq<Field>): set<string> {
    if fields == [] then {} else {fields[0].name} + Names(fields[0].value) + FieldNames(fields[1..])
  }

  function ItemNames(items: seq<Json>): set<string> {
    if items == [] then {} else Names(items[0]) + ItemNames(items[1..])
  }

  /** Walks the document and adds every wanted vendor code it meets. */
  method Walk(doc: Json, wanted: set<string>, found: set<string>) returns (matched: set<string>)
    ensures matched == found + Names(doc) * wanted
    decreases doc
  {
    matched := found;
    match doc {
      case Object(fields) =>
        var i := 0;
        while i < |fields|
          invariant 0 <= i <= |fields|
          invariant matched + FieldNames(fields[i..]) * wanted == found + Names(doc) * wanted
        {
          assert fields[i..][0] == fields[i] && fields[i..][1..] == fields[i + 1..];
          if fields[i].name in wanted {
            matched := matched + {fields[i].name};
          }
          matched := Walk(fields[i].value, wanted, matched);
          i := i + 1;
        }
      case Array(items) =>
        var i := 0;
        while i < |items|
          invariant 0 <= i <= |items|
          invariant matched + ItemNames(items[i..]) * wanted == found + Names(doc) * wanted
        {
          assert items[i..][0] == items[i] && items[i..][1..] == items[i + 1..];
          matched := Walk(items[i], wanted, matched);
          i := i + 1;
        }
      case Text(value) =>
        if value in wanted {
          matched := matched + {value};
        }
      case Scalar =>
    }
  }

  function Vendors(members: seq<Member>): (vendors: seq<string>)
    ensures |vendors| == |members|
    ensures forall i :: 0 <= i < |members| ==> vendors[i] == members[i].vendor
  {
    seq(|members|, i requires 0 <= i < |members| => members[i].vendor)
  }

  method MappedVendorCodes(doc: Json, vendorCodes: seq<string>) returns (matched: set<string>)
    ensures matched == Names(doc) * Elements(vendorCodes)
  {
    var wanted: set<string> := {};
    var i := 0;
    while i < |vendorCodes|
      invariant 0 <= i <= |vendorCodes|
      invariant wanted == Elements(vendorCodes[..i])
    {
      assert vendorCodes[..i + 1] == vendorCodes[..i] + [vendorCodes[i]];
      wanted := wanted + {vendorCodes[i]};
      i := i + 1;
    }
    assert vendorCodes[..i] == vendorCodes;
    matched := Walk(doc, wanted, {});
  }

  // ---------------------------------------------------------------- classification

  function Verdicts(members: seq<Member>, cls: ResultClass, code: SafeCode): (verdicts: seq<MemberVerdict>)
    ensures |verdicts| == |members|
    ensures forall i :: 0 <= i < |members| ==> verdicts[i] == MemberVerdict(members[i].id, cls, code)
  {
    seq(|members|, i requires 0 <= i < |members| => MemberVerdict(members[i].id, cls, code))
  }

  function NotSent(members: seq<Member>, code: SafeCode): Submission {
    Submission(NotDispatched, 0, RejectedProven, code, Verdicts(members, InternalError, code), 0)
  }

  /** The document names the vendor code of every member, and no code stands for two members. */
  ghost predicate NamesAll(members: seq<Member>, doc: Json) {
    && Distinct(Vendors(members))
    && forall i :: 0 <= i < |members| ==> members[i].vendor in Names(doc)
  }

  /** What a reply proves. */
  ghost function Classify(members: seq<Member>, reply: Reply): Submission {
    match reply
    case Envelope(error, doc) =>
      if !error then Submission(ResponseReceived, 200, Accepted, SubmissionAcceptedCode, [], 0)
      else if NamesAll(members, doc) then
        Submission(ResponseReceived, 200, RejectedProven, EnvelopeRejected,
                   Verdicts(members, Rejected, EnvelopeMemberRejected), 0)
      else
        Submission(ResponseReceived, 200, Uncertain, EnvelopeErrorUnmapped, [],
                   |members| - |Names(doc) * Elements(Vendors(members))|)
    case Failed(error, Some(NotDispatched), _) => NotSent(members, Transport(error))
    case Failed(error, Some(ResponseReceived), status) =>
      Submission(ResponseReceived, status, Uncertain, Transport(error), [], |members|)
    case Failed(error, Some(UnknownDelivery), _) =>
      Submission(UnknownDelivery, 0, Uncertain, Transport(error), [], |members|)
    case Failed(_, None, _) => NotSent(members, DeliveryStateInvalid)
    case Unclassified => NotSent(members, CallNotDispatched)
    case Unsupported => NotSent(members, UnsupportedAction)
  }

  /** Counting distinct matches decides whether every member was named. */
  lemma FullMatchNamesAll(members: seq<Member>, doc: Json)
    ensures |Names(doc) * Elements(Vendors(members))| <= |members|
    ensures |Names(doc) * Elements(Vendors(members))| == |members| <==> NamesAll(members, doc)
  {
    var vendors := Vendors(members);
    var matched := Names(doc) * Elements(vendors);
    DistinctIffFull(vendors);
    SubsetSameSize(matched, Elements(vendors));
    if NamesAll(members, doc) {
      assert matched == Elements(vendors);
    }
    if |matched| == |members| {
      forall i | 0 <= i < |members| ensures members[i].vendor in Names(doc) {
        assert vendors[i] in Elements(vendors);
      }
    }
  }

  method ClassifyEnvelope(members: seq<Member>, error: bool, doc: Json) returns (result: Submission)
    ensures result == Classify(members, Envelope(error, doc))
  {
    if !error {
      return Submission(ResponseReceived, 200, Accepted, SubmissionAcceptedCode, [], 0);
    }
    var matched := MappedVendorCodes(doc, Vendors(members));
    FullMatchNamesAll(members, doc);
    if |matched| == |members| {
      var verdicts: seq<MemberVerdict> := [];
      while |verdicts| < |members|
        invariant |verdicts| <= |members|
        invariant verdicts == Verdicts(members, Rejected, EnvelopeMemberRejected)[..|verdicts|]
      {
        verdicts := verdicts + [MemberVerdict(members[|verdicts|].id, Rejected, EnvelopeMemberRejected)];
      }
      return Submission(ResponseReceived, 200, RejectedProven, EnvelopeRejected, verdicts, 0);
    }
    result := Submission(ResponseReceived, 200, Uncertain, EnvelopeErrorUnmapped, [], |members| - |matched|);
  }

  method ClassifyFailure(members: seq<Member>, reply: Reply) returns (result: Submission)
    requires !reply.Envelope?
    ensures result == Classify(members, reply)
  {
    if reply.Unsupported? {
      return NotSent(members, UnsupportedAction);
    }
    if reply.Unclassified? {
      return NotSent(members, CallNotDispatched);
    }
    if reply.delivery.None? {
      return NotSent(members, DeliveryStateInvalid);
    }
    match reply.delivery.value {
      case NotDispatched => result := NotSent(members, Transport(reply.code));
      case ResponseReceived =>
        result := Submission(ResponseReceived, reply.status, Uncertain, Transport(reply.code), [], |members|);
      case UnknownDelivery => result := Submission(UnknownDelivery, 0, Uncertain, Transport(reply.code), [], |members|);
    }
  }

  // ---------------------------------------------------------------- validation

  /** Member results of a proven rejection: rejected or never sent, each member once. */
  ghost predicate ValidVerdicts(verdicts: seq<MemberVerdict>) {
    && (forall i :: 0 <= i < |verdicts| ==>
          verdicts[i].memberId > 0 && (verdicts[i].cls.Rejected? || verdicts[i].cls.InternalError?))
    && (forall i, j :: 0 <= i < j < |verdicts| ==> verdicts[i].memberId != verdicts[j].memberId)
  }

  predicate ValidDelivery(s: Submission) {
    match s.delivery
    case NotDispatched => s.httpStatus == 0 && s.disposition.RejectedProven?
    case ResponseReceived => s.httpStatus == 0 || 100 <= s.httpStatus <= 599
    case UnknownDelivery => s.httpStatus == 0 && s.disposition.Uncertain?
  }

  ghost predicate Valid(s: Submission) {
    && s.unmatched >= 0 && ValidDelivery(s)
    && match s.disposition
       case Accepted => s.members == [] && s.unmatched == 0
       case Uncertain => s.members == [] && s.unmatched > 0
       case RejectedProven => s.members != [] && s.unmatched == 0 && ValidVerdicts(s.members)
  }

  method Validate(s: Submission) returns (ok: bool)
    ensures ok <==> Valid(s)
  {
    if s.unmatched < 0 || !ValidDelivery(s) {
      return false;
    }
    match s.disposition {
      case Accepted => ok := s.members == [] && s.unmatched == 0;
      case Uncertain => ok := s.members == [] && s.unmatched > 0;
      case RejectedProven =>
        if s.members == [] || s.unmatched != 0 {
          return false;
        }
        var seen: set<int> := {};
        var i := 0;
        while i < |s.members|
          invariant 0 <= i <= |s.members|
          invariant seen == set j | 0 <= j < i :: s.members[j].memberId
          invariant ValidVerdicts(s.members[..i])
        {
          var m := s.members[i];
          if m.memberId <= 0 || !(m.cls.Rejected? || m.cls.InternalError?) || m.memberId in seen {
            return false;
          }
          seen := seen + {m.memberId};
          i := i + 1;
        }
        assert s.members[..i] == s.members;
        ok := true;
    }
  }

  // ---------------------------------------------------------------- what the classifier promises

  predicate PlausibleStatus(reply: Reply) {
    reply.Failed? && reply.delivery == Some(ResponseReceived) ==> reply.status == 0 || 100 <= reply.status <= 599
  }

  ghost predicate GoodMembers(members: seq<Member>) {
    && members != []
    && (forall i :: 0 <= i < |members| ==> members[i].id > 0)
    && (forall i, j :: 0 <= i < j < |members| ==> members[i].id != members[j].id)
  }

  /** The validator accepts a classified reply exactly when the HTTP status is a possible one. */
  lemma ClassifiedIsValidIff(members: seq<Member>, reply: Reply)
    requires GoodMembers(members)
    ensures Valid(Classify(members, reply)) <==> PlausibleStatus(reply)
  {
    if reply.Envelope? {
      FullMatchNamesAll(members, reply.additional);
    }
  }

  /** Each member appears exactly once among the verdicts, at its own position. */
  ghost predicate Covers(members: seq<Member>, verdicts: seq<MemberVerdict>) {
    && |verdicts| == |members|
    && forall i :: 0 <= i < |members| ==> verdicts[i].memberId == members[i].id
  }

  /** A proven rejection has one of two causes, and its class tells which. */
  lemma RejectionCauses(members: seq<Member>, reply: Reply)
    requires GoodMembers(members)
    ensures var s := Classify(members, reply);
            && (s.disposition.RejectedProven? <==>
                  || (reply.Envelope? && reply.error && NamesAll(members, reply.additional))
                  || (reply.Failed? && (reply.delivery.None? || reply.delivery == Some(NotDispatched)))
                  || reply.Unclassified? || reply.Unsupported?)
            && (s.disposition.RejectedProven? ==> Covers(members, s.members))
            && (s.disposition.RejectedProven? && s.delivery.ResponseReceived? <==>
                  reply.Envelope? && reply.error && NamesAll(members, reply.additional))
            && (forall i :: 0 <= i < |s.members| ==>
                  (s.members[i].cls.Rejected? <==> s.delivery.ResponseReceived?))
  {
  }

  predicate Answered(s: Submission) { s.delivery == ResponseReceived && (s.httpStatus == 0 || 100 <= s.httpStatus < 600) }

  /** Verdicts on members, each of whom is rejected or was never sent, and each named once. */
  ghost predicate NamesOnce(verdicts: seq<MemberVerdict>) {
    && (forall v :: v in verdicts ==> v.memberId >= 1 && v.cls in {Rejected, InternalError})
    && (forall i, j :: 0 <= i < |verdicts| && 0 <= j < |verdicts| && verdicts[i].memberId == verdicts[j].memberId ==> i == j)
  }

  /** A submission is valid exactly when delivery, disposition and verdicts fit one another. */
  lemma ValidIff(s: Submission)
    ensures Valid(s) <==>
            (match s.disposition
             case Accepted => Answered(s) && s.members == [] && s.unmatched == 0
             case Uncertain => (Answered(s) || (s.delivery == UnknownDelivery && s.httpStatus == 0)) && s.members == [] && s.unmatched >= 1
             case RejectedProven => (Answered(s) || (s.delivery == NotDispatched && s.httpStatus == 0)) &&
                                    |s.members| >= 1 && s.unmatched == 0 && NamesOnce(s.members))
  {
    if s.disposition.RejectedProven? {
      assert forall i :: 0 <= i < |s.members| ==> s.members[i] in s.members;
    }
  }

  /** The names of a document are its object keys and its texts, at any depth. */
  lemma {:induction false} NamesMean(doc: Json, name: string)
    ensures name in Names(doc) <==>
            match doc
            case Object(fields) => exists i :: 0 <= i < |fields| && (fields[i].name == name || name in Names(fields[i].value))
            case Array(items) => exists i :: 0 <= i < |items| && name in Names(items[i])
            case Text(value) => value == name
            case Scalar => false
  {
    match doc
    case Object(fields) => FieldNamesMean(fields, name);
    case Array(items) => ItemNamesMean(items, name);
    case _ =>
  }

  lemma {:induction false} FieldNamesMean(fields: seq<Field>, name: string)
    ensures name in FieldNames(fields) <==> exists i :: 0 <= i < |fields| && (fields[i].name == name || name in Names(fields[i].value))
  {
    if fields != [] {
      FieldNamesMean(fields[1..], name);
      if i :| 0 <= i < |fields[1..]| && (fields[1..][i].name == name || name in Names(fields[1..][i].value)) {
        assert fields[i + 1] == fields[1..][i];
      }
      if i :| 0 <= i < |fields| && (fields[i].name == name || name in Names(fields[i].value)) {
        if i > 0 { assert fields[1..][i - 1] == fields[i]; }
      }
    }
  }

  lemma {:induction false} ItemNamesMean(items: seq<Json>, name: string)
    ensures name in ItemNames(items) <==> exists i :: 0 <= i < |items| && name in Names(items[i])
  {
    if items != [] {
      ItemNamesMean(items[1..], name);
      if i :| 0 <= i < |items[1..]| && name in Names(items[1..][i]) {
        assert items[i + 1] == items[1..][i];
      }
      if i :| 0 <= i < |items| && name in Names(items[i]) {
        if i > 0 { assert items[1..][i - 1] == items[i]; }
      }
    }
  }
}
