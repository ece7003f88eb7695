/** Rows and vocabulary of the publication journal. */
module Publication {
  import opened Common

  /** Outcome classes stored for members, actions and plans. */
  datatype ResultClass = Success | Skipped | Rejected | Partial | Unresolved | InternalError

  /** The error codes of the marketplace client. */
  datatype ErrorCode =
    | InvalidRequest
    | InvalidResultTarget
    | EmptyResponse
    | InvalidResponse
    | RateLimited
    | Canceled
    | DeadlineExceeded
    | Interrupted
    | UnexpectedStatus
    | TransportFailure

  /** The stored result codes; each constructor stands for one constant of the service. */
  datatype SafeCode =
    | CreatedConfirmedByVendorCode
    | RemoteProductBindingMismatch
    | ErrorListRejected
    | RemoteEvidenceConflict
    | ReconciliationTimeout
    | RetryEnvelopeMemberRejected
    | ProductReconciliationUnresolved
    | ProductRejectedByErrorList
    | ProductCreatedByVendorCode
    | ProductReconciliationPartial
    | ProductRetryRejected
    | EnvelopeRejected
    | EnvelopeMemberRejected
    | EnvelopeErrorUnmapped
    | SubmissionAcceptedCode
    | CallNotDispatched
    | UnsupportedAction
    | DeliveryStateInvalid
    | Transport(error: ErrorCode)
    | ProcessInterrupted
    | RetryInterrupted
    | AttributionUnavailable
    | RecheckRemoteChanged
    | PlanChangedAfterDispatch
    | MediaVisible
    | MediaVisibilityTimeout
    | ManualRemotePresent
    | ManualErrorListRejected

  datatype ActionKind = CreateGroup | AddToGroup | UploadMedia

  /** The upload request kept in an action's payload, after JSON decoding. */
  datatype Request =
    | CreateRequest(groups: seq<RequestGroup>)
    | AddRequest(imtId: int, vendors: seq<string>)
    | MediaRequest(links: seq<string>)

  datatype RequestGroup = RequestGroup(subjectId: int, vendors: seq<string>)

  datatype Outcome = Outcome(cls: ResultClass, code: SafeCode, nmId: int)

  /** One product of an action; `outcome` is None while the member is pending. */
  datatype Member = Member(id: int, groupTarget: int, itemTarget: int, vendor: string,
                           outcome: Option<Outcome>, attributed: bool)

  datatype Delivery = NotDispatched | ResponseReceived | UnknownDelivery

  datatype Disposition = Accepted | RejectedProven | Uncertain

  datatype MemberVerdict = MemberVerdict(memberId: int, cls: ResultClass, code: SafeCode)

  /** What one call to the marketplace was classified as. */
  datatype Submission = Submission(delivery: Delivery, httpStatus: int, disposition: Disposition,
                                   code: SafeCode, members: seq<MemberVerdict>, unmatched: int)

  /** A remote card as the catalogue lists it. */
  datatype Card = Card(nmId: int, imtId: int, subjectId: int, vendor: string)

  datatype TrashCard = TrashCard(nmId: int, vendor: string)

  datatype Observation = Observation(normal: seq<Card>, trash: seq<TrashCard>)

  /** An Error List batch that names at least one wanted vendor code. */
  datatype ErrorBatchMatch = ErrorBatchMatch(id: int, rejected: seq<string>)

  datatype MemberResult = MemberResult(memberId: int, cls: ResultClass, code: SafeCode,
                                       nmId: int, imtId: int, subjectId: int,
                                       errorBatchId: int, attributed: bool)

  predicate IsProduct(kind: ActionKind) {
    kind.CreateGroup? || kind.AddToGroup?
  }

  predicate Pending(m: Member) {
    m.outcome.None?
  }
}
