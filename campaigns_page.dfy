/** The public campaigns page (app/campaigns/page.tsx): the search filter over
    a fixed campaign list and the donation dialog, whose payment details are
    checked on the client and never sent anywhere. */
module CampaignsPage {
  import opened Common

  datatype Campaign = Campaign(id: string, title: string, description: string, goal: int, raised: int,
                               category: string, ngo: string)

  // ---------------------------------------------------------------------------
  // Search

  /** `campaign.<field>.toLowerCase().includes(query)` for the four searched fields. */
  predicate Matches(c: Campaign, query: string)
  {
    IsSubstring(query, LowerStr(c.title)) || IsSubstring(query, LowerStr(c.description))
    || IsSubstring(query, LowerStr(c.ngo)) || IsSubstring(query, LowerStr(c.category))
  }

  /** `filteredCampaigns`: a blank query keeps everything; otherwise the query
      is lower-cased and trimmed. */
  function Filtered(campaigns: seq<Campaign>, searchQuery: string): (r: seq<Campaign>)
    ensures Trim(searchQuery) == "" ==> r == campaigns
    ensures Trim(searchQuery) != "" ==>
              forall c :: c in r <==> c in campaigns && Matches(c, Trim(LowerStr(searchQuery)))
    ensures Trim(searchQuery) != "" ==>
              forall c :: multiset(r)[c] == if Matches(c, Trim(LowerStr(searchQuery))) then multiset(campaigns)[c] else 0
    ensures IsSubsequence(r, campaigns)
  {
    if Trim(searchQuery) == "" then
      SubsequenceOfItself(campaigns);
      campaigns
    else Filter(campaigns, (c: Campaign) => Matches(c, Trim(LowerStr(searchQuery))))
  }

  lemma {:induction false} SubsequenceOfItself(s: seq<Campaign>)
    ensures IsSubsequence(s, s)
  {
    if s != [] {
      SubsequenceOfItself(s[1..]);
    }
  }

  // ---------------------------------------------------------------------------
  // Payment details

  datatype Method = MobileMoney | CreditCard | BankTransfer

  datatype Payment = Payment(kind: Method, mobileMoneyNumber: string, cardNumber: string, bankAccount: string)

  /** The field that belongs to the selected payment method. */
  function MethodField(p: Payment): string
  {
    match p.kind
    case MobileMoney => p.mobileMoneyNumber
    case CreditCard => p.cardNumber
    case BankTransfer => p.bankAccount
  }

  /** `parsed` is `Number(donationAmount)`, `None` when it is NaN. */
  predicate ValidAmount(amount: string, parsed: Option<real>)
  {
    amount != "" && parsed.Some? && parsed.value > 0.0
  }

  /** `validatePaymentDetails`: `None` when it passes, otherwise the message it
      shows. */
  function Validate(amount: string, parsed: Option<real>, p: Payment): (r: Option<string>)
    ensures r.None? <==> ValidAmount(amount, parsed) && MethodField(p) != ""
    ensures !ValidAmount(amount, parsed) ==> r == Some("Please enter a valid donation amount")
    ensures ValidAmount(amount, parsed) && MethodField(p) == "" ==>
              r == Some(match p.kind
                        case MobileMoney => "Please enter your mobile money number"
                        case CreditCard => "Please enter your card number"
                        case BankTransfer => "Please enter your bank account number")
  {
    if amount == "" || parsed.None? || parsed.value <= 0.0 then Some("Please enter a valid donation amount")
    else
      match p.kind
      case MobileMoney => if p.mobileMoneyNumber == "" then Some("Please enter your mobile money number") else None
      case CreditCard => if p.cardNumber == "" then Some("Please enter your card number") else None
      case BankTransfer => if p.bankAccount == "" then Some("Please enter your bank account number") else None
  }

  class Page {
    var selected: Option<Campaign>
    var donationAmount: string
    var dialogOpen: bool
    var payment: Payment
    var searchQuery: string

    constructor()
      ensures selected == None && donationAmount == "" && !dialogOpen && searchQuery == ""
      ensures payment == Payment(MobileMoney, "", "", "")
    {
      selected, donationAmount, dialogOpen := None, "", false;
      payment := Payment(MobileMoney, "", "", "");
      searchQuery := "";
    }

    /** `handleDonate`. */
    method Donate(c: Campaign)
      modifies this
      ensures selected == Some(c) && dialogOpen
      ensures donationAmount == old(donationAmount) && payment == old(payment) && searchQuery == old(searchQuery)
    {
      selected := Some(c);
      dialogOpen := true;
    }

    /** `processDonation`: when validation passes the amount and the three
        payment fields are reset, the dialog closes and the selection clears;
        otherwise nothing changes. */
    method ProcessDonation(parsed: Option<real>) returns (message: Option<string>)
      modifies this
      ensures message == Validate(old(donationAmount), parsed, old(payment))
      ensures message.Some? ==>
                selected == old(selected) && donationAmount == old(donationAmount) && dialogOpen == old(dialogOpen)
                && payment == old(payment)
      ensures message.None? ==>
                selected == None && donationAmount == "" && !dialogOpen
                && payment == Payment(old(payment).kind, "", "", "")
      ensures searchQuery == old(searchQuery)
    {
      message := Validate(donationAmount, parsed, payment);
      if message.Some? {
        return;
      }
      donationAmount := "";
      payment := payment.(mobileMoneyNumber := "", cardNumber := "", bankAccount := "");
      dialogOpen := false;
      selected := None;
    }
  }
}
