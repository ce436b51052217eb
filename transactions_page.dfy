/** The transaction-history page: the colour of each status chip. */
module TransactionsPage {

  datatype ChipColor = Success | Warning | Error | Default

  function LowerChar(c: char): char
  {
    if 'A' <= c <= 'Z' then (c as int + 32) as char else c
  }

  /** `s.toLowerCase()` over ASCII letters. */
  function ToLower(s: string): (r: string)
    ensures |r| == |s|
    ensures forall i :: 0 <= i < |s| ==> r[i] == LowerChar(s[i])
    ensures forall i :: 0 <= i < |r| ==> !('A' <= r[i] <= 'Z')
    ensures forall i :: 0 <= i < |s| && !('A' <= s[i] <= 'Z') ==> r[i] == s[i]
  {
    seq(|s|, i requires 0 <= i < |s| => LowerChar(s[i]))
  }

  /** Lower-casing twice is lower-casing once. */
  lemma ToLowerIdempotent(s: string)
    ensures ToLower(ToLower(s)) == ToLower(s)
  {
  }

  /** `getStatusColor`: a switch on the lower-cased status. */
  function StatusColor(status: string): (c: ChipColor)
    ensures c == Success <==> ToLower(status) == "completed"
    ensures c == Warning <==> ToLower(status) == "pending"
    ensures c == Error <==> ToLower(status) == "failed"
    ensures c == Default <==> ToLower(status) !in {"completed", "pending", "failed"}
  {
    var key := ToLower(status);
    if key == "completed" then Success
    else if key == "pending" then Warning
    else if key == "failed" then Error
    else Default
  }

  /** The colour depends on the status only through its lower-cased form. */
  lemma StatusColorIgnoresCase(a: string, b: string)
    requires ToLower(a) == ToLower(b)
    ensures StatusColor(a) == StatusColor(b)
  {
  }

  /** Lower-casing the status first changes nothing. */
  lemma StatusColorOfLowerCase(s: string)
    ensures StatusColor(ToLower(s)) == StatusColor(s)
  {
    ToLowerIdempotent(s);
  }

  lemma CompletedInAnyCase()
    ensures StatusColor("Completed") == Success
    ensures StatusColor("COMPLETED") == Success
    ensures StatusColor("completed") == Success
  {
    assert ToLower("Completed") == "completed";
    assert ToLower("COMPLETED") == "completed";
    assert ToLower("completed") == "completed";
  }

  datatype MockTransaction = MockTransaction(
    id: nat, kind: string, amount: string, recipient: string, date: string, status: string)

  const MockTransactions: seq<MockTransaction> := [
    MockTransaction(1, "UPI Payment", "₹2,000.00", "user@upi", "2024-03-16 14:30", "Completed"),
    MockTransaction(2, "Credit Card Payment", "₹5,000.00", "Credit Card Bill", "2024-03-15 10:15", "Completed"),
    MockTransaction(3, "UPI Payment", "₹1,500.00", "test@upi", "2024-03-14 16:45", "Completed")
  ]

  /** Every row of the page's table shows a "success" chip. */
  lemma EveryMockRowIsSuccess()
    ensures forall i :: 0 <= i < |MockTransactions| ==> StatusColor(MockTransactions[i].status) == Success
  {
    CompletedInAnyCase();
  }
}
