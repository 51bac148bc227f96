/**
 * The per-provider memo of each customer's primary account id, filled from
 * the upstream `/accounts/{cif}` request on first use.
 */
module AccountCache {
  import opened Wrappers

  /** Why a call to the upstream system, or the decoding of its answer, failed. */
  datatype ProviderError =
    | RequestFailed
    | DecodeFailed
    | NoAccounts(cif: string)
    | NotFound(id: int)
    | BadDate(text: string)
    | BadNumber(text: string)

  /** What the accounts request would answer if it were issued now. */
  datatype AccountsReply =
    | ReplyRequestFailed
    | ReplyUndecodable
    | ReplyAccounts(ids: seq<string>)

  /**
   * One lookup as a value: the answer, the cache afterwards, and whether the
   * accounts request was issued.
   */
  function LookupOutcome(cache: map<string, string>, cif: string, reply: AccountsReply)
    : (Result<string, ProviderError>, map<string, string>, bool)
  {
    if cif in cache then (Ok(cache[cif]), cache, false)
    else match reply
      case ReplyRequestFailed => (Err(RequestFailed), cache, true)
      case ReplyUndecodable => (Err(DecodeFailed), cache, true)
      case ReplyAccounts(ids) =>
        if |ids| == 0 then (Err(NoAccounts(cif)), cache, true)
        else (Ok(ids[0]), cache[cif := ids[0]], true)
  }

  class CustomerAccountCache {
    var cache: map<string, string>

    /** `NewCache`: an empty memo. */
    constructor ()
      ensures cache == map[]
    {
      cache := map[];
    }

    /**
     * `GetPrimaryAccountId`. The remote request is the oracle `reply`, which is
     * consulted only on a miss; `requested` says whether it was.
     */
    method GetPrimaryAccountId(customerCif: string, reply: AccountsReply)
      returns (r: Result<string, ProviderError>, requested: bool)
      modifies this
      ensures (r, cache, requested) == LookupOutcome(old(cache), customerCif, reply)
    {
      if customerCif in cache {
        return Ok(cache[customerCif]), false;
      }
      requested := true;
      match reply {
        case ReplyRequestFailed =>
          return Err(RequestFailed), requested;
        case ReplyUndecodable =>
          return Err(DecodeFailed), requested;
        case ReplyAccounts(accountIds) =>
          if |accountIds| == 0 {
            return Err(NoAccounts(customerCif)), requested;
          }
          var accountId := accountIds[0];
          cache := cache[customerCif := accountId];
          return Ok(accountId), requested;
      }
    }
  }

  /** A hit answers the stored id without a request, whatever the remote would say. */
  lemma HitAnswersStored(cache: map<string, string>, cif: string, reply: AccountsReply)
    requires cif in cache
    ensures LookupOutcome(cache, cif, reply) == (Ok(cache[cif]), cache, false)
  {
  }

  /** A miss always issues the request; it succeeds exactly when the reply lists an account. */
  lemma MissOutcome(cache: map<string, string>, cif: string, reply: AccountsReply)
    requires cif !in cache
    ensures LookupOutcome(cache, cif, reply).2
    ensures LookupOutcome(cache, cif, reply).0.Ok? <==> reply.ReplyAccounts? && |reply.ids| > 0
    ensures reply.ReplyAccounts? && |reply.ids| > 0 ==>
      LookupOutcome(cache, cif, reply).0 == Ok(reply.ids[0]) &&
      LookupOutcome(cache, cif, reply).1 == cache[cif := reply.ids[0]]
  {
  }

  /** Every failure leaves the memo as it was. */
  lemma FailureKeepsCache(cache: map<string, string>, cif: string, reply: AccountsReply)
    requires LookupOutcome(cache, cif, reply).0.Err?
    ensures LookupOutcome(cache, cif, reply).1 == cache
    ensures LookupOutcome(cache, cif, reply).0 ==
      Err(match reply
          case ReplyRequestFailed => RequestFailed
          case ReplyUndecodable => DecodeFailed
          case ReplyAccounts(_) => NoAccounts(cif))
  {
  }

  /** Entries are only added: every id stored before is still stored, unchanged. */
  lemma EntriesOnlyAdded(cache: map<string, string>, cif: string, reply: AccountsReply)
    ensures var after := LookupOutcome(cache, cif, reply).1;
      && (forall c | c in cache :: c in after && after[c] == cache[c])
      && after.Keys <= cache.Keys + {cif}
  {
  }

  /** Whatever the answer, it is the one the memo holds afterwards. */
  lemma AnswerIsMemoised(cache: map<string, string>, cif: string, reply: AccountsReply)
    requires LookupOutcome(cache, cif, reply).0.Ok?
    ensures var (r, after, _) := LookupOutcome(cache, cif, reply);
      cif in after && after[cif] == r.value
  {
  }

  /**
   * Two lookups in a row: once an id has been answered, the next lookup gives
   * the same id and issues no request, whatever the remote would now answer.
   */
  lemma {:induction false} SecondLookupIsHit(cache: map<string, string>, cif: string, first: AccountsReply, second: AccountsReply)
    requires LookupOutcome(cache, cif, first).0.Ok?
    ensures var (r, after, _) := LookupOutcome(cache, cif, first);
      LookupOutcome(after, cif, second) == (r, after, false)
  {
    AnswerIsMemoised(cache, cif, first);
  }
}
