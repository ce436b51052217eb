/** The JSON shapes the backend sends back, and an HTTP answer as a status
  * code plus one of those bodies. */
module Http {

  /** A stored payment card of the static catalog. */
  datatype Card = Card(id: nat, last4: string, expiryMonth: string, expiryYear: string)

  /** One ledger entry; a negative amount is a debit. */
  datatype TransactionRecord = TransactionRecord(id: nat, description: string, amount: int, date: string)

  datatype Body =
    | Message(message: string)                      // { message }
    | TokenIssued(token: string)                    // { token }
    | Verified                                      // { valid: true }
    | Score(score: int)                             // { score }
    | CardList(cards: seq<Card>)                    // [ card, ... ]
    | Ledger(records: seq<TransactionRecord>)       // [ transaction, ... ]
    | PaymentResult(success: bool, message: string) // { success, message }
    | ErrorDetail(message: string, code: string)    // { error: { message, code } }

  datatype Response = Response(status: nat, body: Body)
}
