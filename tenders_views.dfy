/** The tender endpoints (backend/tenders/views.py): tender creation with its
    reference and document loop, recording an evaluation recommendation,
    replacing an evaluation committee, the evaluation summary order, and the
    averages of the evaluation overview and the procurement analytics. */
module TenderViews {
  import opened Common
  import opened TenderModels

  // ----------------------------------------------------------- create_tender

  /** `f"TND-{year}-{str(uuid)[:8].upper()}"`. */
  function TenderReference(year: nat, uuid: string): (r: string)
    ensures StartsWith(r, "TND-")
  {
    "TND-" + Digits(year) + "-" + Upper(uuid[..if |uuid| < 8 then |uuid| else 8])
  }

  /** The year reads back from the reference, and the random part is the
      first eight characters of the identifier with no lower-case letter. */
  lemma TenderReferenceParts(year: nat, uuid: string)
    requires |uuid| >= 8
    ensures var r := TenderReference(year, uuid); var n := |Digits(year)|;
            && |r| == 4 + n + 1 + 8
            && ParseDigits(r[4..4 + n]) == year
            && r[4 + n] == '-'
            && forall i :: 4 + n + 1 <= i < |r| ==> r[i] == UpperChar(uuid[i - (4 + n + 1)]) && !('a' <= r[i] <= 'z')
  {
    var r := TenderReference(year, uuid);
    var n := |Digits(year)|;
    assert r[4..4 + n] == Digits(year);
    ParseDigitsOfDigits(year);
  }

  /** A file of the multipart request. */
  datatype UploadedFile = UploadedFile(name: string, size: nat, contentType: string)

  /** The decoded `document_metadata_<i>` object; absent keys are None. */
  datatype DocumentMeta = DocumentMeta(documentName: Option<string>, documentType: Option<string>,
                                       isMandatory: Option<bool>, version: Option<string>)

  /** A `TenderDocument` row, with the index of the file it stores. */
  datatype TenderDocument = TenderDocument(index: nat, name: string, docType: string, size: nat,
                                           mimeType: string, mandatory: bool, version: string)

  /** The row stored for file `i`: metadata values, else the defaults. */
  function DocumentFor(i: nat, f: UploadedFile, m: DocumentMeta): (d: TenderDocument)
    ensures d.index == i && d.size == f.size && d.mimeType == f.contentType
    ensures d.name == m.documentName.GetOr(f.name) && d.docType == m.documentType.GetOr("other")
    ensures d.mandatory == m.isMandatory.GetOr(false) && d.version == m.version.GetOr("1.0")
  {
    TenderDocument(i, m.documentName.GetOr(f.name), m.documentType.GetOr("other"), f.size,
                   f.contentType, m.isMandatory.GetOr(false), m.version.GetOr("1.0"))
  }

  /** The stored documents are, in file order, exactly the files with an
      index below `document_count` and metadata, each stored as `DocumentFor`
      says. */
  predicate StoredInOrder(docs: seq<TenderDocument>, files: seq<UploadedFile>, documentCount: int,
                          metadata: map<nat, DocumentMeta>)
  {
    && (forall k :: 0 <= k < |docs| ==>
          && docs[k].index < |files| && docs[k].index < documentCount && docs[k].index in metadata
          && docs[k] == DocumentFor(docs[k].index, files[docs[k].index], metadata[docs[k].index]))
    && (forall k, l :: 0 <= k < l < |docs| ==> docs[k].index < docs[l].index)
    && (forall i :: 0 <= i < |files| && i < documentCount && i in metadata ==>
          exists k :: 0 <= k < |docs| && docs[k].index == i)
  }

  /** The document loop of `create_tender`: file `i` is stored only when
      `i < document_count` and its (non-empty) metadata was sent; the map
      holds exactly the indices whose metadata is present. */
  method CreateDocuments(files: seq<UploadedFile>, documentCount: int, metadata: map<nat, DocumentMeta>)
    returns (docs: seq<TenderDocument>)
    ensures StoredInOrder(docs, files, documentCount, metadata)
  {
    docs := [];
    var i := 0;
    while i < |files|
      invariant 0 <= i <= |files|
      invariant forall k :: 0 <= k < |docs| ==>
                  && docs[k].index < i && docs[k].index < documentCount && docs[k].index in metadata
                  && docs[k] == DocumentFor(docs[k].index, files[docs[k].index], metadata[docs[k].index])
      invariant forall k, l :: 0 <= k < l < |docs| ==> docs[k].index < docs[l].index
      invariant forall j :: 0 <= j < i && j < documentCount && j in metadata ==>
                  exists k :: 0 <= k < |docs| && docs[k].index == j
    {
      if i < documentCount && i in metadata {
        ghost var before := docs;
        docs := docs + [DocumentFor(i, files[i], metadata[i])];
        assert forall k :: 0 <= k < |before| ==> docs[k] == before[k];
        assert docs[|docs| - 1].index == i;
      }
      i := i + 1;
    }
  }

  /** The decoded `tender_data` fields the handler checks. */
  datatype TenderData = TenderData(category: nat, procuringEntity: nat, subcategory: Option<nat>,
                                   status: Option<TenderStatus>, closingDate: int)

  datatype CreateTenderError = TenderDataRequired | InvalidCategoryOrEntity

  /** What the handler stores: the tender, its upload requirements and its
      documents. */
  datatype StoredTender = StoredTender(tender: Tender, requirements: seq<UploadRequirement>,
                                       documents: seq<TenderDocument>)

  /** `create_tender`: 400 without `tender_data`, 400 when the category, the
      entity or a given (non-zero) subcategory does not exist; otherwise the
      tender gets a `TND-` reference and the requested status (draft by
      default), and every requirement and every eligible file is stored. */
  method CreateTender(data: Option<TenderData>, year: nat, uuid: string, publishedAt: int,
                      categories: set<nat>, entities: set<nat>, requirements: seq<UploadRequirement>,
                      files: seq<UploadedFile>, documentCount: int, metadata: map<nat, DocumentMeta>)
    returns (r: Result<StoredTender, CreateTenderError>)
    ensures data.None? ==> r == Err(TenderDataRequired)
    ensures data.Some? ==>
              (r == Err(InvalidCategoryOrEntity) <==>
                 data.value.category !in categories || data.value.procuringEntity !in entities
                 || (data.value.subcategory.Some? && data.value.subcategory.value != 0
                     && data.value.subcategory.value !in categories))
    ensures (&& data.Some? && data.value.category in categories && data.value.procuringEntity in entities
             && (data.value.subcategory.None? || data.value.subcategory.value == 0
                 || data.value.subcategory.value in categories))
            ==> r.Ok?
    ensures r.Ok? ==>
              && r.value.tender.referenceNumber == TenderReference(year, uuid)
              && r.value.tender.status == data.value.status.GetOr(TDraft)
              && r.value.tender.closingDate == data.value.closingDate
              && r.value.requirements == requirements
              && StoredInOrder(r.value.documents, files, documentCount, metadata)
  {
    if data.None? {
      return Err(TenderDataRequired);
    }
    var d := data.value;
    if d.category !in categories || d.procuringEntity !in entities
       || (d.subcategory.Some? && d.subcategory.value != 0 && d.subcategory.value !in categories) {
      return Err(InvalidCategoryOrEntity);
    }
    var reference := TenderReference(year, uuid);
    var tender := Tender(reference, d.status.GetOr(TDraft), Preparation, publishedAt, d.closingDate);
    var docs := CreateDocuments(files, documentCount, metadata);
    r := Ok(StoredTender(tender, requirements, docs));
  }

  // ----------------------------------------- submit_evaluation_recommendation

  /** The score fields of a bid that a recommendation may overwrite. */
  datatype ScoreFields = ScoreFields(technical: Option<real>, financial: Option<real>,
                                     total: Option<real>, ranking: Option<int>)

  /** A summary row sent by the evaluation screen. */
  datatype SummaryRow = SummaryRow(id: string, techScore: Option<real>, financialScore: Option<real>,
                                   combinedScore: Option<real>, rank: Option<int>)

  /** `top_recommendation`. */
  datatype Top = Top(bidId: string, combinedScore: Option<real>)

  /** One row applied to a bid: each sent (non-null) value replaces the field. */
  function Overwrite(f: ScoreFields, row: SummaryRow): ScoreFields
  {
    ScoreFields(if row.techScore.Some? then row.techScore else f.technical,
                if row.financialScore.Some? then row.financialScore else f.financial,
                if row.combinedScore.Some? then row.combinedScore else f.total,
                if row.rank.Some? then row.rank else f.ranking)
  }

  /** The bids after the rows are applied in turn; rows naming no bid of the
      tender are skipped. */
  function Applied(bids: map<string, ScoreFields>, rows: seq<SummaryRow>): (r: map<string, ScoreFields>)
    ensures r.Keys == bids.Keys
  {
    if rows == [] then bids
    else
      var before := Applied(bids, rows[..|rows| - 1]);
      var row := rows[|rows| - 1];
      if row.id in before then before[row.id := Overwrite(before[row.id], row)] else before
  }

  /** The ids of the rows that name a bid of the tender, in row order. */
  function Processed(ids: set<string>, rows: seq<SummaryRow>): (r: seq<string>)
    ensures |r| <= |rows|
    ensures forall x :: x in r <==> exists i :: 0 <= i < |rows| && rows[i].id == x && x in ids
  {
    if rows == [] then []
    else
      var before := Processed(ids, rows[..|rows| - 1]);
      var row := rows[|rows| - 1];
      assert forall i :: 0 <= i < |rows| - 1 ==> rows[..|rows| - 1][i] == rows[i];
      if row.id in ids then before + [row.id] else before
  }

  /** The first processed row ranked 1, if any. */
  function FirstTop(ids: set<string>, rows: seq<SummaryRow>): (r: Option<Top>)
    ensures r.None? <==> forall i :: 0 <= i < |rows| ==> !(rows[i].id in ids && rows[i].rank == Some(1))
    ensures r.Some? ==> exists i :: 0 <= i < |rows| && rows[i].id in ids && rows[i].rank == Some(1)
                          && r.value == Top(rows[i].id, rows[i].combinedScore)
                          && forall j :: 0 <= j < i ==> !(rows[j].id in ids && rows[j].rank == Some(1))
  {
    if rows == [] then None
    else
      var before := FirstTop(ids, rows[..|rows| - 1]);
      var n := |rows| - 1;
      assert forall i :: 0 <= i < n ==> rows[..n][i] == rows[i];
      if before.Some? then before
      else if rows[n].id in ids && rows[n].rank == Some(1) then Some(Top(rows[n].id, rows[n].combinedScore))
      else None
  }

  /** `submit_evaluation_recommendation`: the bids of the tender, keyed by
      id, are updated row by row; the response lists the processed ids and
      the top recommendation. */
  method RecordRecommendation(bids: map<string, ScoreFields>, summary: seq<SummaryRow>)
    returns (out: map<string, ScoreFields>, updated: seq<string>, top: Option<Top>)
    ensures out == Applied(bids, summary)
    ensures updated == Processed(bids.Keys, summary)
    ensures top == FirstTop(bids.Keys, summary)
  {
    out, updated, top := bids, [], None;
    var i := 0;
    while i < |summary|
      invariant 0 <= i <= |summary|
      invariant out == Applied(bids, summary[..i])
      invariant updated == Processed(bids.Keys, summary[..i])
      invariant top == FirstTop(bids.Keys, summary[..i])
    {
      var row := summary[i];
      assert summary[..i + 1][..i] == summary[..i];
      if row.id in out {
        out := out[row.id := Overwrite(out[row.id], row)];
        updated := updated + [row.id];
        if row.rank == Some(1) && top.None? {
          top := Some(Top(row.id, row.combinedScore));
        }
      }
      i := i + 1;
    }
    assert summary[..|summary|] == summary;
  }

  /** A bid no row names keeps all its fields. */
  lemma {:induction false} UnnamedBidUnchanged(bids: map<string, ScoreFields>, rows: seq<SummaryRow>, id: string)
    requires id in bids
    requires forall i :: 0 <= i < |rows| ==> rows[i].id != id
    ensures Applied(bids, rows)[id] == bids[id]
  {
    if rows != [] {
      UnnamedBidUnchanged(bids, rows[..|rows| - 1], id);
    }
  }

  /** A field that no row naming the bid sends keeps its value. */
  lemma {:induction false} UnsentFieldsKept(bids: map<string, ScoreFields>, rows: seq<SummaryRow>, id: string)
    requires id in bids
    ensures (forall i :: 0 <= i < |rows| && rows[i].id == id ==> rows[i].techScore.None?)
              ==> Applied(bids, rows)[id].technical == bids[id].technical
    ensures (forall i :: 0 <= i < |rows| && rows[i].id == id ==> rows[i].financialScore.None?)
              ==> Applied(bids, rows)[id].financial == bids[id].financial
    ensures (forall i :: 0 <= i < |rows| && rows[i].id == id ==> rows[i].combinedScore.None?)
              ==> Applied(bids, rows)[id].total == bids[id].total
    ensures (forall i :: 0 <= i < |rows| && rows[i].id == id ==> rows[i].rank.None?)
              ==> Applied(bids, rows)[id].ranking == bids[id].ranking
  {
    if rows != [] {
      var n := |rows| - 1;
      assert forall i :: 0 <= i < n ==> rows[..n][i] == rows[i];
      UnsentFieldsKept(bids, rows[..n], id);
    }
  }

  /** The last row naming a bid decides every field it sends. */
  lemma LastRowWins(bids: map<string, ScoreFields>, rows: seq<SummaryRow>)
    requires rows != [] && rows[|rows| - 1].id in bids
    ensures var row := rows[|rows| - 1]; var f := Applied(bids, rows)[row.id];
            && (row.techScore.Some? ==> f.technical == row.techScore)
            && (row.financialScore.Some? ==> f.financial == row.financialScore)
            && (row.combinedScore.Some? ==> f.total == row.combinedScore)
            && (row.rank.Some? ==> f.ranking == row.rank)
  {
  }

  // ------------------------------------------------ evaluation_committee POST

  /** A member entry of the request; ids of 0 and empty strings are falsy. */
  datatype MemberEntry = MemberEntry(userId: Option<nat>, id: Option<nat>, role: Option<string>, expertise: Option<string>)

  /** A stored `CommitteeMember`. */
  datatype Member = Member(userId: nat, role: string, expertise: string)

  /** `m.get('user_id') or m.get('id')`, None when both are falsy. */
  function EntryUser(e: MemberEntry): (u: Option<nat>)
    ensures u.Some? ==> u.value != 0
    ensures u.Some? ==> u == e.userId || u == e.id
  {
    if e.userId.Some? && e.userId.value != 0 then e.userId
    else if e.id.Some? && e.id.value != 0 then e.id
    else None
  }

  /** `value or default` for an optional string. */
  function OrDefault(s: Option<string>, default: string): (r: string)
    ensures s.Some? && s.value != [] ==> r == s.value
    ensures (s.None? || s.value == []) ==> r == default
  {
    if s.Some? && s.value != [] then s.value else default
  }

  /** The members the loop creates: entries without a user id or naming an
      unknown user are skipped; the role defaults to `member`. */
  function MembersFrom(entries: seq<MemberEntry>, users: set<nat>): (r: seq<Member>)
    ensures |r| <= |entries|
    ensures forall k :: 0 <= k < |r| ==> r[k].userId in users && r[k].role != []
  {
    if entries == [] then []
    else
      var e := entries[|entries| - 1];
      var before := MembersFrom(entries[..|entries| - 1], users);
      var u := EntryUser(e);
      if u.Some? && u.value in users then before + [Member(u.value, OrDefault(e.role, "member"), OrDefault(e.expertise, ""))]
      else before
  }

  /** Every entry naming a known user becomes a member. */
  lemma {:induction false} KnownEntriesKept(entries: seq<MemberEntry>, users: set<nat>, i: nat)
    requires i < |entries| && EntryUser(entries[i]).Some? && EntryUser(entries[i]).value in users
    ensures Member(EntryUser(entries[i]).value, OrDefault(entries[i].role, "member"),
                   OrDefault(entries[i].expertise, "")) in MembersFrom(entries, users)
  {
    var n := |entries| - 1;
    if i < n {
      assert entries[..n][i] == entries[i];
      KnownEntriesKept(entries[..n], users, i);
    }
  }

  /** `committee_name or name or 'Evaluation Committee'`. */
  function CommitteeName(committeeName: Option<string>, name: Option<string>): (r: string)
    ensures r != []
  {
    OrDefault(committeeName, OrDefault(name, "Evaluation Committee"))
  }

  /** The evaluation committee of one tender. */
  class Committee {
    var name: string
    var chairperson: nat
    var members: seq<Member>

    constructor ()
      ensures name == [] && chairperson == 0 && members == []
    {
      name := [];
      chairperson := 0;
      members := [];
    }

    /** Delete the old members, then create one per usable entry. A second
        entry naming a user already added breaks the `unique_together` of
        committee and user: the insert fails (`ok` false) with the members
        created so far in place, for the caller to roll back. */
    method ReplaceMembers(entries: seq<MemberEntry>, users: set<nat>) returns (ok: bool)
      modifies this`members
      ensures ok <==> DistinctUsers(MembersFrom(entries, users))
      ensures ok ==> members == MembersFrom(entries, users)
      ensures members <= MembersFrom(entries, users)
    {
      members := [];
      var i := 0;
      while i < |entries|
        invariant 0 <= i <= |entries|
        invariant members == MembersFrom(entries[..i], users)
        invariant DistinctUsers(members)
      {
        assert entries[..i + 1][..i] == entries[..i];
        MembersPrefix(entries, users, i);
        var e := entries[i];
        var u := EntryUser(e);
        if u.Some? && u.value in users {
          var m := Member(u.value, OrDefault(e.role, "member"), OrDefault(e.expertise, ""));
          if HasUser(members, u.value) {
            MembersPrefix(entries, users, i + 1);
            RepeatedMember(members, m, MembersFrom(entries, users));
            return false;
          }
          members := members + [m];
        }
        i := i + 1;
      }
      assert entries[..|entries|] == entries;
      return true;
    }
  }

  /** No two members name the same user (`unique_together` of committee
      and user). */
  predicate DistinctUsers(ms: seq<Member>)
  {
    forall i, j :: 0 <= i < j < |ms| ==> ms[i].userId != ms[j].userId
  }

  /** Some member names user `u`. */
  predicate HasUser(ms: seq<Member>, u: nat)
  {
    exists k :: 0 <= k < |ms| && ms[k].userId == u
  }

  /** The members built from a prefix of the entries begin the members built
      from all of them. */
  lemma {:induction false} MembersPrefix(entries: seq<MemberEntry>, users: set<nat>, n: nat)
    requires n <= |entries|
    ensures MembersFrom(entries[..n], users) <= MembersFrom(entries, users)
    decreases |entries| - n
  {
    if n == |entries| {
      assert entries[..n] == entries;
    } else {
      MembersPrefix(entries, users, n + 1);
      assert entries[..n + 1][..n] == entries[..n];
      var a, b, c := MembersFrom(entries[..n], users), MembersFrom(entries[..n + 1], users), MembersFrom(entries, users);
      assert a <= b;
      assert c[..|a|] == c[..|b|][..|a|];
    }
  }

  /** A list beginning with members that already name `m`'s user, then `m`,
      does not have distinct users. */
  lemma RepeatedMember(members: seq<Member>, m: Member, all: seq<Member>)
    requires HasUser(members, m.userId) && members + [m] <= all
    ensures !DistinctUsers(all)
  {
    var k :| 0 <= k < |members| && members[k].userId == m.userId;
    assert all[k] == (members + [m])[k];
    assert all[|members|] == (members + [m])[|members|];
  }

  /** Two entries naming the same known user, once as `user_id` and once as
      `id`, make the committee's member inserts fail. */
  lemma SameUserTwiceFails(u: nat, users: set<nat>)
    requires u != 0 && u in users
    ensures !DistinctUsers(MembersFrom([MemberEntry(Some(u), None, None, None), MemberEntry(None, Some(u), None, None)], users))
  {
    var entries := [MemberEntry(Some(u), None, None, None), MemberEntry(None, Some(u), None, None)];
    assert entries[..1] == [entries[0]];
    assert entries[..1][..0] == [];
    var ms := MembersFrom(entries, users);
    assert ms[0].userId == u && ms[1].userId == u;
  }

  datatype CommitteeResponse =
    | CommitteeSaved(members: seq<Member>) | NotAuthorized | ChairRequired | ChairNotFound | ServerError

  /** Who may manage a tender's committee: a superuser, the tender's creator,
      or an active member of its procuring entity. */
  predicate MayManageCommittee(isSuperuser: bool, isCreator: bool, activeEntityLink: bool)
  {
    isSuperuser || isCreator || activeEntityLink
  }

  /** `evaluation_committee` (POST): the permission check, then a non-zero
      chairperson that exists, then, inside one transaction, the committee
      is saved with its members replaced wholesale. When two usable entries
      name the same user a member insert fails, the transaction is rolled
      back and the answer is a server error. A refused or failed request
      changes nothing. */
  method SaveCommittee(c: Committee, isSuperuser: bool, isCreator: bool, activeEntityLink: bool,
                       committeeName: Option<string>, name: Option<string>, chairperson: Option<nat>,
                       entries: seq<MemberEntry>, users: set<nat>)
    returns (resp: CommitteeResponse)
    modifies c
    ensures !MayManageCommittee(isSuperuser, isCreator, activeEntityLink) ==> resp == NotAuthorized
    ensures (MayManageCommittee(isSuperuser, isCreator, activeEntityLink) && (chairperson.None? || chairperson.value == 0))
              ==> resp == ChairRequired
    ensures (MayManageCommittee(isSuperuser, isCreator, activeEntityLink) && chairperson.Some?
             && chairperson.value != 0 && chairperson.value !in users) ==> resp == ChairNotFound
    ensures (MayManageCommittee(isSuperuser, isCreator, activeEntityLink) && chairperson.Some?
             && chairperson.value != 0 && chairperson.value in users)
              ==> (resp == ServerError <==> !DistinctUsers(MembersFrom(entries, users)))
    ensures !resp.CommitteeSaved? ==> unchanged(c)
    ensures resp.CommitteeSaved? ==>
              && c.name == CommitteeName(committeeName, name)
              && chairperson.Some? && c.chairperson == chairperson.value && c.chairperson in users
              && c.members == MembersFrom(entries, users) && resp.members == c.members
              && DistinctUsers(c.members)
  {
    if !MayManageCommittee(isSuperuser, isCreator, activeEntityLink) {
      return NotAuthorized;
    }
    if chairperson.None? || chairperson.value == 0 {
      return ChairRequired;
    }
    if chairperson.value !in users {
      return ChairNotFound;
    }
    var oldName, oldChair, oldMembers := c.name, c.chairperson, c.members;
    c.name := CommitteeName(committeeName, name);
    c.chairperson := chairperson.value;
    var ok := c.ReplaceMembers(entries, users);
    if !ok {
      c.name, c.chairperson, c.members := oldName, oldChair, oldMembers;
      return ServerError;
    }
    resp := CommitteeSaved(c.members);
  }

  // ------------------------------------------------------- evaluation_summary

  /** A row of the evaluation summary. */
  datatype SummaryLine = SummaryLine(bidId: string, totalScore: Option<real>, ranking: Option<nat>)

  const Unranked: int := 1000000

  function RankingKey(l: SummaryLine): int
  {
    if l.ranking.Some? then l.ranking.value else Unranked
  }

  /** Reversed comparison, so that `SortBy` (greatest first) sorts ascending. */
  predicate RankedNoLater(a: SummaryLine, b: SummaryLine)
  {
    RankingKey(a) <= RankingKey(b)
  }

  lemma RankedNoLaterIsPreorder()
    ensures TotalPreorder(RankedNoLater)
  {
  }

  /** `out.sort(key=ranking, None as 1_000_000)`: a permutation, ascending
      by ranking. */
  function SummaryOrder(lines: seq<SummaryLine>): (r: seq<SummaryLine>)
    ensures multiset(r) == multiset(lines)
    ensures forall i, j :: 0 <= i < j < |r| ==> RankingKey(r[i]) <= RankingKey(r[j])
  {
    RankedNoLaterIsPreorder();
    SortBySorted(lines, RankedNoLater);
    SortBy(lines, RankedNoLater)
  }

  /** With the stored rankings below the sentinel, unranked bids come last. */
  lemma UnrankedLast(lines: seq<SummaryLine>)
    requires forall i :: 0 <= i < |lines| && lines[i].ranking.Some? ==> lines[i].ranking.value < Unranked
    ensures var r := SummaryOrder(lines);
            forall i, j :: 0 <= i < j < |r| && r[i].ranking.None? ==> r[j].ranking.None?
  {
    var r := SummaryOrder(lines);
    forall j | 0 <= j < |r| && r[j].ranking.Some? ensures r[j].ranking.value < Unranked {
      assert r[j] in multiset(lines);
    }
  }

  // ------------------------------------------------------ evaluation_overview

  /** The fields of a tender the overview counts. */
  datatype TenderRow = TenderRow(stage: TenderStage, status: TenderStatus, hasContract: bool)

  function CountAtEvaluation(ts: seq<TenderRow>): (n: nat)
    ensures n <= |ts|
    ensures n == 0 <==> forall i :: 0 <= i < |ts| ==> ts[i].stage != Evaluation
  {
    if ts == [] then 0
    else (if ts[0].stage == Evaluation then 1 else 0) + CountAtEvaluation(ts[1..])
  }

  function CountClosedUncontracted(ts: seq<TenderRow>): (n: nat)
    ensures n <= |ts|
    ensures n == 0 <==> forall i :: 0 <= i < |ts| ==> !(ts[i].status == Closed && !ts[i].hasContract)
  {
    if ts == [] then 0
    else (if ts[0].status == Closed && !ts[0].hasContract then 1 else 0) + CountClosedUncontracted(ts[1..])
  }

  /** `pending_evaluations`: the tenders at the evaluation stage or, when
      there are none, the closed tenders without a contract. */
  function PendingEvaluations(ts: seq<TenderRow>): (n: nat)
    ensures n <= |ts|
    ensures (exists i :: 0 <= i < |ts| && ts[i].stage == Evaluation) ==> n == CountAtEvaluation(ts) && n > 0
    ensures (forall i :: 0 <= i < |ts| ==> ts[i].stage != Evaluation) ==> n == CountClosedUncontracted(ts)
  {
    var e := CountAtEvaluation(ts);
    if e > 0 then e else CountClosedUncontracted(ts)
  }

  /** A calendar date. */
  datatype Date = Date(year: nat, month: nat, day: nat)

  predicate DateLeq(a: Date, b: Date)
  {
    a.year < b.year || (a.year == b.year && (a.month < b.month || (a.month == b.month && a.day <= b.day)))
  }

  /** Created between the first of this month and today, inclusive. */
  predicate ThisMonth(d: Date, today: Date)
  {
    DateLeq(Date(today.year, today.month, 1), d) && DateLeq(d, today)
  }

  /** For a real date (day at least 1), "this month" means the same year and
      month, on or before today's day. */
  lemma ThisMonthMeaning(d: Date, today: Date)
    requires d.day >= 1
    ensures ThisMonth(d, today) <==> d.year == today.year && d.month == today.month && d.day <= today.day
  {
  }

  /** `completed_this_month`. */
  function CompletedThisMonth(created: seq<Date>, today: Date): (n: nat)
    ensures n <= |created|
    ensures n == 0 <==> forall i :: 0 <= i < |created| ==> !ThisMonth(created[i], today)
  {
    if created == [] then 0
    else (if ThisMonth(created[0], today) then 1 else 0) + CompletedThisMonth(created[1..], today)
  }

  /** A contract with the creation instants of its tender and of itself. */
  datatype ContractTimes = ContractTimes(tenderCreated: Option<int>, contractCreated: Option<int>)

  /** `timedelta.days`: whole days, floored. */
  function WholeDays(seconds: int): (d: int)
    ensures d * SecondsPerDay <= seconds < (d + 1) * SecondsPerDay
  {
    seconds / SecondsPerDay
  }

  /** The whole-day durations of the contracts with both instants, in order. */
  function Durations(cs: seq<ContractTimes>): (r: seq<real>)
    ensures |r| <= |cs|
  {
    if cs == [] then []
    else
      var c := cs[|cs| - 1];
      var before := Durations(cs[..|cs| - 1]);
      if c.tenderCreated.Some? && c.contractCreated.Some?
      then before + [WholeDays(c.contractCreated.value - c.tenderCreated.value) as real]
      else before
  }

  /** `avg_days_to_complete`: the durations are collected in a loop, then
      averaged and rounded to one place; 0.0 when there are none. */
  method AverageDaysToComplete(cs: seq<ContractTimes>) returns (avg: real)
    ensures Durations(cs) == [] ==> avg == 0.0
    ensures Durations(cs) != [] ==> avg == RoundTo(Sum(Durations(cs)) / |Durations(cs)| as real, 1)
  {
    var durations: seq<real> := [];
    var i := 0;
    while i < |cs|
      invariant 0 <= i <= |cs|
      invariant durations == Durations(cs[..i])
    {
      assert cs[..i + 1][..i] == cs[..i];
      var c := cs[i];
      if c.tenderCreated.Some? && c.contractCreated.Some? {
        durations := durations + [WholeDays(c.contractCreated.value - c.tenderCreated.value) as real];
      }
      i := i + 1;
    }
    assert cs[..|cs|] == cs;
    avg := if durations == [] then 0.0 else RoundTo(Sum(durations) / |durations| as real, 1);
  }

  /** No contract precedes its tender, so every duration is non-negative. */
  lemma {:induction false} DurationsNonNegative(cs: seq<ContractTimes>)
    requires forall i :: 0 <= i < |cs| && cs[i].tenderCreated.Some? && cs[i].contractCreated.Some?
               ==> cs[i].tenderCreated.value <= cs[i].contractCreated.value
    ensures forall k :: 0 <= k < |Durations(cs)| ==> Durations(cs)[k] >= 0.0
  {
    if cs != [] {
      DurationsNonNegative(cs[..|cs| - 1]);
    }
  }

  /** The rounded mean of non-negative values is non-negative. */
  lemma RoundedMeanNonNegative(xs: seq<real>, places: nat)
    requires xs != [] && forall k :: 0 <= k < |xs| ==> xs[k] >= 0.0
    ensures RoundTo(Sum(xs) / |xs| as real, places) >= 0.0
  {
    SumNonNegative(xs);
    QuotientRange(Sum(xs), |xs| as real, Sum(xs));
    RoundToNonNegative(Sum(xs) / |xs| as real, places);
  }

  /** Then the reported average is non-negative too. */
  lemma AverageDaysNonNegative(cs: seq<ContractTimes>)
    requires forall i :: 0 <= i < |cs| && cs[i].tenderCreated.Some? && cs[i].contractCreated.Some?
               ==> cs[i].tenderCreated.value <= cs[i].contractCreated.value
    requires Durations(cs) != []
    ensures RoundTo(Sum(Durations(cs)) / |Durations(cs)| as real, 1) >= 0.0
  {
    DurationsNonNegative(cs);
    RoundedMeanNonNegative(Durations(cs), 1);
  }

  // ---------------------------------------------------- procurement_analytics

  /** `average_bid_count_per_tender` from the per-tender bid counts: 0 with
      no tenders, otherwise the mean rounded to two places, so within half a
      hundredth of it. */
  function AverageBidCount(counts: seq<real>): (r: real)
    ensures counts == [] ==> r == 0.0
    ensures counts != [] ==> Sum(counts) / |counts| as real - 0.005 < r <= Sum(counts) / |counts| as real + 0.005
  {
    if counts == [] then 0.0
    else
      assert Pow10(2) == 100;
      RoundToBounds(Sum(counts) / |counts| as real, 100.0);
      RoundTo(Sum(counts) / |counts| as real, 2)
  }

  /** Bid counts are never negative, nor is their average. */
  lemma AverageBidCountNonNegative(counts: seq<real>)
    requires forall k :: 0 <= k < |counts| ==> counts[k] >= 0.0
    ensures AverageBidCount(counts) >= 0.0
  {
    if counts != [] {
      RoundedMeanNonNegative(counts, 2);
    }
  }

  /** A tender's closing instant (None when unset) and the instants of the
      evaluations of its bids. */
  datatype TenderEvaluations = TenderEvaluations(closingDate: Option<int>, evaluationDates: seq<int>)

  /** The latest of a non-empty list of instants. */
  function Latest(ds: seq<int>): (m: int)
    requires ds != []
    ensures m in ds && forall k :: 0 <= k < |ds| ==> ds[k] <= m
  {
    if |ds| == 1 then ds[0]
    else
      var rest := Latest(ds[1..]);
      if ds[0] >= rest then ds[0] else rest
  }

  /** Days from closing to the last evaluation, clamped at 0. */
  function EvaluationDays(t: TenderEvaluations): (d: real)
    requires t.closingDate.Some? && t.evaluationDates != []
    ensures d >= 0.0
  {
    var days := (Latest(t.evaluationDates) - t.closingDate.value) as real / 86400.0;
    if days >= 0.0 then days else 0.0
  }

  /** The clamped durations of the tenders with a closing date and at least
      one evaluation, in order. */
  function EvaluationDurations(ts: seq<TenderEvaluations>): (r: seq<real>)
    ensures |r| <= |ts|
    ensures forall k :: 0 <= k < |r| ==> r[k] >= 0.0
    ensures r == [] <==> forall i :: 0 <= i < |ts| ==> ts[i].closingDate.None? || ts[i].evaluationDates == []
  {
    if ts == [] then []
    else
      var t := ts[|ts| - 1];
      var n := |ts| - 1;
      var before := EvaluationDurations(ts[..n]);
      assert forall i :: 0 <= i < n ==> ts[..n][i] == ts[i];
      if t.closingDate.Some? && t.evaluationDates != [] then before + [EvaluationDays(t)] else before
  }

  /** `average_evaluation_time_days`: None without durations, else their
      mean rounded to two places, which is never negative. */
  method AverageEvaluationDays(ts: seq<TenderEvaluations>) returns (avg: Option<real>)
    ensures avg.None? <==> forall i :: 0 <= i < |ts| ==> ts[i].closingDate.None? || ts[i].evaluationDates == []
    ensures avg.Some? ==> avg.value >= 0.0
    ensures avg.Some? ==> avg.value == RoundTo(Sum(EvaluationDurations(ts)) / |EvaluationDurations(ts)| as real, 2)
  {
    var durations: seq<real> := [];
    var i := 0;
    while i < |ts|
      invariant 0 <= i <= |ts|
      invariant durations == EvaluationDurations(ts[..i])
    {
      assert ts[..i + 1][..i] == ts[..i];
      var t := ts[i];
      if t.closingDate.Some? && t.evaluationDates != [] {
        durations := durations + [EvaluationDays(t)];
      }
      i := i + 1;
    }
    assert ts[..|ts|] == ts;
    if durations == [] {
      avg := None;
    } else {
      RoundedMeanNonNegative(durations, 2);
      avg := Some(RoundTo(Sum(durations) / |durations| as real, 2));
    }
  }
}
