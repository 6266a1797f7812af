/** Choosing the parties of an outbound recording session, and the metadata that
    describes them (internal/api/siprec_src.go; section 6.7 of RFC 7865). */
module SiprecSelect {
  type Id = string

  datatype Party = Party(id: Id, aor: string, mixerId: Id)

  // ---- The order of ids ----

  /** Go's string order: the first difference decides, a proper prefix is smaller. */
  predicate Below(a: Id, b: Id) {
    if b == "" then false
    else if a == "" then true
    else if a[0] != b[0] then a[0] < b[0]
    else Below(a[1..], b[1..])
  }

  lemma BelowIsStrict(a: Id, b: Id)
    ensures !(Below(a, b) && Below(b, a))
    ensures !Below(a, a)
  {
  }

  lemma BelowIsTotal(a: Id, b: Id)
    ensures a == b || Below(a, b) || Below(b, a)
  {
    if a != "" && b != "" && a[0] == b[0] {
      BelowIsTotal(a[1..], b[1..]);
      assert a == [a[0]] + a[1..] && b == [b[0]] + b[1..];
    }
  }

  lemma BelowIsTransitive(a: Id, b: Id, c: Id)
    requires Below(a, b) && Below(b, c)
    ensures Below(a, c)
  {
    if a != "" && a[0] == b[0] && b[0] == c[0] {
      BelowIsTransitive(a[1..], b[1..], c[1..]);
    }
  }

  /** Sorted by id, with distinct ids, as the room enumerates its candidates. */
  predicate Ascending(s: seq<Party>) {
    forall i, j | 0 <= i < j < |s| :: Below(s[i].id, s[j].id)
  }

  // ---- What selectSRCParties computes ----

  /** The candidates by id; a later candidate replaces an earlier one. */
  function Index(candidates: seq<Party>): map<Id, Party> {
    if candidates == [] then map[]
    else Index(candidates[..|candidates| - 1])[candidates[|candidates| - 1].id := candidates[|candidates| - 1]]
  }

  /** The wanted candidates, each at its first mention. */
  function Picked(byId: map<Id, Party>, want: seq<Id>): seq<Party> {
    if want == [] then []
    else
      var before, id := want[..|want| - 1], want[|want| - 1];
      Picked(byId, before) + if id in byId && id !in before then [byId[id]] else []
  }

  function Unknown(byId: map<Id, Party>, want: seq<Id>): seq<Id> {
    if want == [] then []
    else
      var id := want[|want| - 1];
      Unknown(byId, want[..|want| - 1]) + if id !in byId then [id] else []
  }

  function InsertById(p: Party, s: seq<Party>): seq<Party> {
    if s == [] || Below(p.id, s[0].id) then [p] + s else [s[0]] + InsertById(p, s[1..])
  }

  /** The parties in id order. */
  function SortById(s: seq<Party>): seq<Party> {
    if s == [] then [] else InsertById(s[|s| - 1], SortById(s[..|s| - 1]))
  }

  method SortParties(s: seq<Party>) returns (sorted: seq<Party>)
    ensures sorted == SortById(s)
  {
    sorted := [];
    for i := 0 to |s|
      invariant sorted == SortById(s[..i])
    {
      assert s[..i + 1][..i] == s[..i];
      sorted := InsertById(s[i], sorted);
    }
    assert s[..|s|] == s;
  }

  method SelectParties(candidates: seq<Party>, want: seq<Id>) returns (out: seq<Party>, unknown: seq<Id>)
    ensures want == [] ==> out == candidates && unknown == []
    ensures want != [] ==>
              out == SortById(Picked(Index(candidates), want)) && unknown == Unknown(Index(candidates), want)
  {
    if |want| == 0 {
      return candidates, [];
    }
    var byId: map<Id, Party> := map[];
    for i := 0 to |candidates|
      invariant byId == Index(candidates[..i])
    {
      assert candidates[..i + 1][..i] == candidates[..i];
      byId := byId[candidates[i].id := candidates[i]];
    }
    assert candidates[..|candidates|] == candidates;
    out, unknown := [], [];
    var seen: set<Id> := {};
    for i := 0 to |want|
      invariant out == Picked(byId, want[..i]) && unknown == Unknown(byId, want[..i])
      invariant forall id :: id in seen <==> id in want[..i] && id in byId
    {
      assert want[..i + 1][..i] == want[..i];
      assert forall id :: id in want[..i + 1] <==> id in want[..i] || id == want[i];
      if want[i] !in byId {
        unknown := unknown + [want[i]];
      } else if want[i] !in seen {
        seen := seen + {want[i]};
        out := out + [byId[want[i]]];
      }
    }
    assert want[..|want|] == want;
    out := SortParties(out);
  }

  // ---- Why that is canonical ----

  /** The candidates whose id is wanted, in candidate order. */
  function Keep(candidates: seq<Party>, want: set<Id>): seq<Party> {
    if candidates == [] then []
    else
      var last := candidates[|candidates| - 1];
      Keep(candidates[..|candidates| - 1], want) + if last.id in want then [last] else []
  }

  function Elements(want: seq<Id>): set<Id> {
    set id | id in want
  }

  lemma IndexHolds(candidates: seq<Party>, id: Id)
    requires Ascending(candidates)
    ensures id in Index(candidates) <==> exists c :: c in candidates && c.id == id
    ensures id in Index(candidates) ==> Index(candidates)[id] in candidates && Index(candidates)[id].id == id
  {
    if candidates != [] {
      var before, last := candidates[..|candidates| - 1], candidates[|candidates| - 1];
      IndexHolds(before, id);
      assert forall c :: c in candidates <==> c in before || c == last;
    }
  }

  lemma SameIdSameParty(candidates: seq<Party>, a: Party, b: Party)
    requires Ascending(candidates) && a in candidates && b in candidates && a.id == b.id
    ensures a == b
  {
    var i :| 0 <= i < |candidates| && candidates[i] == a;
    var j :| 0 <= j < |candidates| && candidates[j] == b;
    BelowIsStrict(a.id, b.id);
  }

  /** All ids different, in any order. */
  predicate DistinctIds(s: seq<Party>) {
    forall i, j | 0 <= i < j < |s| :: s[i].id != s[j].id
  }

  lemma {:induction false} PickedHolds(candidates: seq<Party>, want: seq<Id>)
    requires Ascending(candidates)
    ensures DistinctIds(Picked(Index(candidates), want))
    ensures forall p :: p in Picked(Index(candidates), want) <==> p in candidates && p.id in want
    decreases |want|
  {
    if want != [] {
      var before, id := want[..|want| - 1], want[|want| - 1];
      PickedHolds(candidates, before);
      IndexHolds(candidates, id);
      var picked := Picked(Index(candidates), before);
      assert forall x :: x in want <==> x in before || x == id;
      forall p
        ensures p in Picked(Index(candidates), want) <==> p in candidates && p.id in want
      {
        if p in candidates && p.id == id {
          SameIdSameParty(candidates, p, Index(candidates)[id]);
        }
      }
    }
  }

  lemma InsertHolds(p: Party, s: seq<Party>)
    requires Ascending(s) && forall q | q in s :: q.id != p.id
    ensures Ascending(InsertById(p, s))
    ensures forall q :: q in InsertById(p, s) <==> q in s || q == p
  {
    if s == [] {
    } else if Below(p.id, s[0].id) {
      forall k | 0 < k < |s|
        ensures Below(p.id, s[k].id)
      {
        BelowIsTransitive(p.id, s[0].id, s[k].id);
      }
    } else {
      BelowIsTotal(p.id, s[0].id);
      assert s[0] in s;
      InsertHolds(p, s[1..]);
      var rest := InsertById(p, s[1..]);
      forall q | q in rest
        ensures Below(s[0].id, q.id)
      {
        if q != p {
          var k :| 0 <= k < |s[1..]| && s[1..][k] == q;
          assert s[k + 1] == q;
        }
      }
      var all := [s[0]] + rest;
      forall i, j | 0 <= i < j < |all|
        ensures Below(all[i].id, all[j].id)
      {
        assert all[j] in rest;
      }
      assert s == [s[0]] + s[1..];
    }
  }

  lemma SortHolds(s: seq<Party>)
    requires DistinctIds(s)
    ensures Ascending(SortById(s))
    ensures forall q :: q in SortById(s) <==> q in s
  {
    if s != [] {
      var before, last := s[..|s| - 1], s[|s| - 1];
      SortHolds(before);
      InsertHolds(last, SortById(before));
      assert forall q :: q in s <==> q in before || q == last;
    }
  }

  lemma KeepHolds(candidates: seq<Party>, want: set<Id>)
    requires Ascending(candidates)
    ensures Ascending(Keep(candidates, want))
    ensures forall q :: q in Keep(candidates, want) <==> q in candidates && q.id in want
  {
    if candidates != [] {
      var before, last := candidates[..|candidates| - 1], candidates[|candidates| - 1];
      KeepHolds(before, want);
      var kept := Keep(before, want);
      forall i | 0 <= i < |kept|
        ensures Below(kept[i].id, last.id)
      {
        assert kept[i] in before;
        var k :| 0 <= k < |before| && before[k] == kept[i];
        assert candidates[k] == kept[i];
      }
      assert forall q :: q in candidates <==> q in before || q == last;
    }
  }

  /** A strictly ascending sequence is determined by its elements. */
  lemma {:induction false} AscendingIsUnique(a: seq<Party>, b: seq<Party>)
    requires Ascending(a) && Ascending(b) && forall q :: q in a <==> q in b
    ensures a == b
    decreases |a|
  {
    assert b != [] ==> b[0] in b;
    if a != [] {
      assert a[0] in b && b[0] in a;
      var i :| 0 <= i < |b| && b[i] == a[0];
      var j :| 0 <= j < |a| && a[j] == b[0];
      BelowIsStrict(a[0].id, b[0].id);
      assert a[0] == b[0];
      forall q
        ensures q in a[1..] <==> q in b[1..]
      {
        TailMembers(a, q);
        TailMembers(b, q);
      }
      AscendingIsUnique(a[1..], b[1..]);
      assert a == [a[0]] + a[1..] && b == [b[0]] + b[1..];
    }
  }

  lemma TailMembers(s: seq<Party>, q: Party)
    requires Ascending(s) && s != []
    ensures q in s[1..] <==> q in s && q != s[0]
  {
    if q in s[1..] {
      var k :| 0 <= k < |s[1..]| && s[1..][k] == q;
      BelowIsStrict(s[0].id, s[k + 1].id);
    }
  }

  /** Selection is canonical: over candidates in id order, a non-empty allowlist
      selects exactly the candidates it names, in candidate order, whatever its
      own order and duplicates; and it reports exactly the names it does not know. */
  lemma SelectionIsCanonical(candidates: seq<Party>, want: seq<Id>)
    requires Ascending(candidates)
    ensures SortById(Picked(Index(candidates), want)) == Keep(candidates, Elements(want))
    ensures forall id :: id in Unknown(Index(candidates), want) <==>
                           id in want && forall c | c in candidates :: c.id != id
  {
    var picked := Picked(Index(candidates), want);
    PickedHolds(candidates, want);
    SortHolds(picked);
    KeepHolds(candidates, Elements(want));
    AscendingIsUnique(SortById(picked), Keep(candidates, Elements(want)));
    forall id
      ensures id in Unknown(Index(candidates), want) <==> id in want && forall c | c in candidates :: c.id != id
    {
      UnknownHolds(Index(candidates), want, id);
      IndexHolds(candidates, id);
    }
  }

  lemma {:induction false} UnknownHolds(byId: map<Id, Party>, want: seq<Id>, id: Id)
    ensures id in Unknown(byId, want) <==> id in want && id !in byId
    decreases |want|
  {
    if want != [] {
      UnknownHolds(byId, want[..|want| - 1], id);
      assert id in want <==> id in want[..|want| - 1] || id == want[|want| - 1];
    }
  }

  // ---- The metadata ----

  /** fmt.Sprintf("%d") of a positive number. */
  function Decimal(n: nat): string {
    if n < 10 then [Digit(n)] else Decimal(n / 10) + [Digit(n % 10)]
  }

  function Digit(d: nat): char
    requires d < 10
  {
    ['0', '1', '2', '3', '4', '5', '6', '7', '8', '9'][d]
  }

  /** Reading a decimal numeral back. */
  function Value(s: string): int {
    if s == "" then 0 else Value(s[..|s| - 1]) * 10 + (s[|s| - 1] as int - '0' as int)
  }

  lemma {:induction false} DecimalReadsBack(n: nat)
    ensures Value(Decimal(n)) == n
    decreases n
  {
    if n >= 10 {
      DecimalReadsBack(n / 10);
      assert Decimal(n)[..|Decimal(n)| - 1] == Decimal(n / 10);
    } else {
      assert Decimal(n)[..0] == "";
    }
  }

  datatype Participant = Participant(id: Id, sessionId: string, aor: string)
  /** `mark` is the label of RFC 7865; label is a reserved word here. */
  datatype Stream = Stream(id: string, sessionId: string, mark: string)
  datatype StreamAssoc = StreamAssoc(participantId: Id, send: seq<string>)

  datatype Recording = Recording(
    participants: seq<Participant>,
    participantSessions: seq<(Id, string)>,
    streams: seq<Stream>,
    participantStreams: seq<StreamAssoc>)

  function Label(i: nat): string {
    Decimal(i + 1)
  }

  const STREAM: string := "stream-"

  function StreamId(i: nat): string {
    STREAM + Label(i)
  }

  /** The document that describes the parties, a stream for each in turn. */
  function Document(sessionId: string, parties: seq<Party>): Recording {
    if parties == [] then Recording([], [], [], [])
    else
      var i := |parties| - 1;
      var rec, p := Document(sessionId, parties[..i]), parties[i];
      Recording(
        rec.participants + [Participant(p.id, sessionId, p.aor)],
        rec.participantSessions + [(p.id, sessionId)],
        rec.streams + [Stream(StreamId(i), sessionId, Label(i))],
        rec.participantStreams + [StreamAssoc(p.id, [StreamId(i)])])
  }

  /** The label of each party's stream, by party. */
  function LabelMap(parties: seq<Party>): map<Id, string> {
    if parties == [] then map[]
    else
      var i := |parties| - 1;
      LabelMap(parties[..i])[parties[i].id := Label(i)]
  }

  method BuildMetadata(sessionId: string, parties: seq<Party>) returns (rec: Recording, labels: map<Id, string>)
    ensures rec == Document(sessionId, parties) && labels == LabelMap(parties)
    ensures DistinctIds(parties) ==> Faithful(parties, rec, labels)
  {
    rec, labels := Recording([], [], [], []), map[];
    for i := 0 to |parties|
      invariant rec == Document(sessionId, parties[..i]) && labels == LabelMap(parties[..i])
    {
      assert parties[..i + 1][..i] == parties[..i];
      var p, mark := parties[i], Decimal(i + 1);
      var streamId := STREAM + mark;
      labels := labels[p.id := mark];
      rec := Recording(
        rec.participants + [Participant(p.id, sessionId, p.aor)],
        rec.participantSessions + [(p.id, sessionId)],
        rec.streams + [Stream(streamId, sessionId, mark)],
        rec.participantStreams + [StreamAssoc(p.id, [streamId])]);
    }
    assert parties[..|parties|] == parties;
    if DistinctIds(parties) {
      MetadataIsFaithful(sessionId, parties);
    }
  }

  lemma {:induction false} DocumentAt(sessionId: string, parties: seq<Party>, i: nat)
    ensures var rec := Document(sessionId, parties);
            |rec.participants| == |rec.participantSessions| == |rec.streams| == |rec.participantStreams| == |parties|
    ensures i < |parties| ==>
              var rec := Document(sessionId, parties);
              && rec.participants[i] == Participant(parties[i].id, sessionId, parties[i].aor)
              && rec.streams[i] == Stream(StreamId(i), sessionId, Label(i))
              && rec.participantStreams[i] == StreamAssoc(parties[i].id, [StreamId(i)])
    decreases |parties|
  {
    if parties != [] {
      DocumentAt(sessionId, parties[..|parties| - 1], i);
    }
  }

  lemma {:induction false} LabelAt(parties: seq<Party>, i: nat)
    requires DistinctIds(parties) && i < |parties|
    ensures parties[i].id in LabelMap(parties) && LabelMap(parties)[parties[i].id] == Label(i)
    decreases |parties|
  {
    if i < |parties| - 1 {
      LabelAt(parties[..|parties| - 1], i);
    }
  }

  lemma {:induction false} LabelledId(parties: seq<Party>, id: Id) returns (k: nat)
    requires id in LabelMap(parties)
    ensures k < |parties| && parties[k].id == id
    decreases |parties|
  {
    k := |parties| - 1;
    if parties[k].id != id {
      k := LabelledId(parties[..k], id);
    }
  }

  predicate DistinctStreams(streams: seq<Stream>) {
    forall i, j | 0 <= i < j < |streams| :: streams[i].id != streams[j].id && streams[i].mark != streams[j].mark
  }

  predicate DistinctSenders(assocs: seq<StreamAssoc>) {
    forall i, j | 0 <= i < j < |assocs| :: assocs[i].participantId != assocs[j].participantId
  }

  /** Following the document from party to stream leads to the label of the map. */
  ghost predicate Resolves(rec: Recording, labels: map<Id, string>, id: Id) {
    && id in labels
    && exists i, j ::
         && 0 <= i < |rec.participantStreams| && 0 <= j < |rec.streams|
         && rec.participantStreams[i] == StreamAssoc(id, [rec.streams[j].id])
         && rec.streams[j].mark == labels[id]
  }

  predicate Injective(labels: map<Id, string>) {
    forall a, b | a in labels && b in labels && labels[a] == labels[b] :: a == b
  }

  /** Each party sends exactly one stream, no two streams share an id or a label,
      and the label map names for each party the label of its own stream. */
  ghost predicate Faithful(parties: seq<Party>, rec: Recording, labels: map<Id, string>) {
    && DistinctStreams(rec.streams)
    && DistinctSenders(rec.participantStreams)
    && (forall p | p in parties :: Resolves(rec, labels, p.id))
    && Injective(labels)
  }

  lemma SamePrefix(prefix: string, a: string, b: string)
    requires prefix + a == prefix + b
    ensures a == b
  {
    assert a == (prefix + a)[|prefix|..] && b == (prefix + b)[|prefix|..];
  }

  lemma LabelsDiffer(i: nat, j: nat)
    requires Label(i) == Label(j) || StreamId(i) == StreamId(j)
    ensures i == j
  {
    if StreamId(i) == StreamId(j) {
      SamePrefix(STREAM, Label(i), Label(j));
    }
    DecimalReadsBack(i + 1);
    DecimalReadsBack(j + 1);
  }

  lemma {:induction false} StreamsAreDistinct(sessionId: string, parties: seq<Party>)
    ensures DistinctStreams(Document(sessionId, parties).streams)
  {
    var streams := Document(sessionId, parties).streams;
    DocumentAt(sessionId, parties, 0);
    forall i, j | 0 <= i < j < |streams|
      ensures streams[i].id != streams[j].id && streams[i].mark != streams[j].mark
    {
      DocumentAt(sessionId, parties, i);
      DocumentAt(sessionId, parties, j);
      if streams[i].id == streams[j].id || streams[i].mark == streams[j].mark {
        LabelsDiffer(i, j);
      }
    }
  }

  lemma {:induction false} SendersAreDistinct(sessionId: string, parties: seq<Party>)
    requires DistinctIds(parties)
    ensures DistinctSenders(Document(sessionId, parties).participantStreams)
  {
    var assocs := Document(sessionId, parties).participantStreams;
    DocumentAt(sessionId, parties, 0);
    forall i, j | 0 <= i < j < |assocs|
      ensures assocs[i].participantId != assocs[j].participantId
    {
      DocumentAt(sessionId, parties, i);
      DocumentAt(sessionId, parties, j);
    }
  }

  lemma LabelsAreInjective(parties: seq<Party>)
    requires DistinctIds(parties)
    ensures Injective(LabelMap(parties))
  {
    var labels := LabelMap(parties);
    forall a, b | a in labels && b in labels && labels[a] == labels[b]
      ensures a == b
    {
      var i := LabelledId(parties, a);
      var j := LabelledId(parties, b);
      LabelAt(parties, i);
      LabelAt(parties, j);
      LabelsDiffer(i, j);
    }
  }

  lemma PartyResolves(sessionId: string, parties: seq<Party>, i: nat)
    requires DistinctIds(parties) && i < |parties|
    ensures Resolves(Document(sessionId, parties), LabelMap(parties), parties[i].id)
  {
    DocumentAt(sessionId, parties, i);
    LabelAt(parties, i);
    var rec := Document(sessionId, parties);
    assert rec.participantStreams[i] == StreamAssoc(parties[i].id, [rec.streams[i].id]);
  }

  lemma MetadataIsFaithful(sessionId: string, parties: seq<Party>)
    requires DistinctIds(parties)
    ensures Faithful(parties, Document(sessionId, parties), LabelMap(parties))
  {
    StreamsAreDistinct(sessionId, parties);
    SendersAreDistinct(sessionId, parties);
    LabelsAreInjective(parties);
    forall p | p in parties
      ensures Resolves(Document(sessionId, parties), LabelMap(parties), p.id)
    {
      var i :| 0 <= i < |parties| && parties[i] == p;
      PartyResolves(sessionId, parties, i);
    }
  }

  // ---- Selection and metadata together ----

  /** What selectSRCParties selects. */
  function Selected(candidates: seq<Party>, want: seq<Id>): seq<Party> {
    if want == [] then candidates else SortById(Picked(Index(candidates), want))
  }

  lemma AscendingIsDistinct(s: seq<Party>)
    requires Ascending(s)
    ensures DistinctIds(s)
  {
    forall i, j | 0 <= i < j < |s|
      ensures s[i].id != s[j].id
    {
      BelowIsStrict(s[i].id, s[j].id);
    }
  }

  /** A recording session is determined by whom the allowlist names, not by how:
      two allowlists with the same names describe the same parties, in the same
      streams under the same labels, and the description is faithful. */
  lemma SessionIsCanonical(sessionId: string, candidates: seq<Party>, want: seq<Id>, other: seq<Id>)
    requires Ascending(candidates) && Elements(want) == Elements(other)
    ensures var parties, same := Selected(candidates, want), Selected(candidates, other);
            && Faithful(parties, Document(sessionId, parties), LabelMap(parties))
            && Document(sessionId, same) == Document(sessionId, parties)
            && LabelMap(same) == LabelMap(parties)
  {
    SelectionIsCanonical(candidates, want);
    SelectionIsCanonical(candidates, other);
    assert want != [] ==> want[0] in Elements(want);
    assert other != [] ==> other[0] in Elements(other);
    var parties := Selected(candidates, want);
    assert Ascending(parties) by {
      KeepHolds(candidates, Elements(want));
    }
    AscendingIsDistinct(parties);
    MetadataIsFaithful(sessionId, parties);
  }
}
