/** Records of the tenders application (backend/tenders/models.py): a tender's
    status and stage, whether it accepts bids, how many days it has left, and
    the upload requirements bidders must meet. Instants are whole seconds. */
module TenderModels {

  /** `Tender.STATUS_CHOICES`. */
  datatype TenderStatus = TDraft | Published | Closed | Cancelled | Awarded | Completed

  /** `Tender.TENDER_STAGES`. */
  datatype TenderStage = Preparation | StagePublished | Clarification | Submission | Evaluation | Award | ContractStage

  /** The fields of a tender that the workflows read. */
  datatype Tender = Tender(
    referenceNumber: string,
    status: TenderStatus,
    stage: TenderStage,
    publicationDate: int,
    closingDate: int)

  const SecondsPerDay: int := 86400

  /** `Tender.is_open`: published and closing strictly after `now`. */
  predicate IsOpen(t: Tender, now: int)
  {
    t.status == Published && t.closingDate > now
  }

  /** Openness only ends: a tender open at some moment was open at every
      earlier one, and none is open once its closing time has come or while
      it is not published. */
  lemma OpenUntilClosing(t: Tender, now1: int, now2: int)
    requires now1 <= now2
    ensures IsOpen(t, now2) ==> IsOpen(t, now1)
    ensures now2 >= t.closingDate || t.status != Published ==> !IsOpen(t, now2)
  {
  }

  /** `Tender.days_remaining`: the whole days of `closing - now` (a
      `timedelta`'s `days`, i.e. floored) while open, else 0. */
  function DaysRemaining(t: Tender, now: int): (d: int)
    ensures !IsOpen(t, now) ==> d == 0
    ensures IsOpen(t, now) ==> 0 <= d && d * SecondsPerDay <= t.closingDate - now < (d + 1) * SecondsPerDay
  {
    if IsOpen(t, now) then (t.closingDate - now) / SecondsPerDay else 0
  }

  /** A later `now` never leaves more days. */
  lemma DaysRemainingMonotone(t: Tender, now1: int, now2: int)
    requires now1 <= now2
    ensures DaysRemaining(t, now2) <= DaysRemaining(t, now1)
  {
    if IsOpen(t, now2) {
      var d1, d2 := DaysRemaining(t, now1), DaysRemaining(t, now2);
      assert d2 * SecondsPerDay <= t.closingDate - now2 <= t.closingDate - now1 < (d1 + 1) * SecondsPerDay;
    }
  }

  /** `publication_date = DateTimeField(default=now())`, as written: the call
      runs once, when the module is loaded, so every tender created without
      an explicit date gets that one instant. */
  function PublicationDefaultAsWritten(moduleLoadedAt: int, createdAt: int): (d: int)
    ensures d == moduleLoadedAt
  {
    moduleLoadedAt
  }

  /** Two tenders created a day apart get the same default publication date,
      and neither gets its own creation instant. */
  lemma PublicationDefaultIsFrozen()
    ensures PublicationDefaultAsWritten(0, 100) == PublicationDefaultAsWritten(0, 100 + SecondsPerDay)
    ensures PublicationDefaultAsWritten(0, 100) != 100
  {
  }

  /** The evidently intended `default=now` (the callable): each tender is
      stamped when it is created. */
  function PublicationDefault(moduleLoadedAt: int, createdAt: int): (d: int)
    ensures d == createdAt
  {
    createdAt
  }

  /** With the callable default, later tenders get later publication dates and
      the date never precedes creation. */
  lemma PublicationDefaultFollowsCreation(loaded: int, c1: int, c2: int)
    requires c1 < c2
    ensures PublicationDefault(loaded, c1) < PublicationDefault(loaded, c2)
    ensures PublicationDefault(loaded, c1) >= c1
  {
  }

  /** `TenderUploadDocuments`: a document a bidder must (or may) upload. The
      size limit is a `PositiveIntegerField`, so never negative. */
  datatype UploadRequirement = UploadRequirement(name: string, fileType: string, maxFileSize: nat, mandatory: bool)
}
