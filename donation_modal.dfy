/** The donation dialog (components/donation-modal.tsx): a three-step flow
    held in the `step` state field, the amount and phone boxes, and the
    payment-method radio group whose choice decides what steps 2 and 3 show.
    Nothing is sent anywhere. */
module DonationModal {

  /** The radio group's four values: card, orange, mobile, wallet. */
  datatype PaymentMethod = Card | Orange | Mobile | Wallet

  /** What step 2 asks for. */
  datatype PaymentFields = CardFields | PhoneField(hint: string)

  /** Step 2: the card form for a card, otherwise the phone box with a hint
      naming Orange Money for `orange` and Mobile Money for the rest. */
  function Step2Fields(m: PaymentMethod): (f: PaymentFields)
    ensures f.CardFields? <==> m == Card
    ensures f.PhoneField? ==>
              f.hint == (if m == Orange then "You will receive an Orange Money confirmation message"
                         else "You will receive a Mobile Money confirmation message")
  {
    match m
    case Card => CardFields
    case Orange => PhoneField("You will receive an Orange Money confirmation message")
    case _ => PhoneField("You will receive a Mobile Money confirmation message")
  }

  const EmailReceipt := "A receipt will be sent to your email address."
  const PhoneConfirmation := "A confirmation message has been sent to your phone."

  /** Step 3's note: an e-mailed receipt for a card, a phone confirmation otherwise. */
  function ConfirmationNote(m: PaymentMethod): (note: string)
    ensures note == EmailReceipt <==> m == Card
    ensures note == PhoneConfirmation <==> m != Card
  {
    if m == Card then EmailReceipt else PhoneConfirmation
  }

  /** The phone box appears exactly when no receipt is e-mailed. */
  lemma {:induction false} PhoneIffNoEmail(m: PaymentMethod)
    ensures Step2Fields(m).PhoneField? <==> ConfirmationNote(m) == PhoneConfirmation
  {
  }

  class Modal {
    var amount: string
    var paymentMethod: PaymentMethod
    var step: int
    var phoneNumber: string

    /** Only steps 1, 2 and 3 exist. */
    predicate Valid()
      reads this
    {
      1 <= step <= 3
    }

    constructor()
      ensures Valid()
      ensures step == 1 && amount == "" && paymentMethod == Card && phoneNumber == ""
    {
      amount, paymentMethod, step, phoneNumber := "", Card, 1, "";
    }

    /** The amount box (step 1). */
    method SetAmount(text: string)
      requires Valid() && step == 1
      modifies this
      ensures Valid()
      ensures amount == text
      ensures step == old(step) && paymentMethod == old(paymentMethod) && phoneNumber == old(phoneNumber)
    {
      amount := text;
    }

    /** The radio group (step 1). */
    method SelectMethod(m: PaymentMethod)
      requires Valid() && step == 1
      modifies this
      ensures Valid()
      ensures paymentMethod == m
      ensures step == old(step) && amount == old(amount) && phoneNumber == old(phoneNumber)
    {
      paymentMethod := m;
    }

    /** The phone box, shown at step 2 for a method other than card. */
    method SetPhone(text: string)
      requires Valid() && step == 2 && Step2Fields(paymentMethod).PhoneField?
      modifies this
      ensures Valid()
      ensures phoneNumber == text
      ensures step == old(step) && amount == old(amount) && paymentMethod == old(paymentMethod)
    {
      phoneNumber := text;
    }

    /** Continue: step 1 to 2 whatever the amount, even an empty one. */
    method Continue()
      requires Valid() && step == 1
      modifies this
      ensures Valid()
      ensures step == 2 && step > old(step)
      ensures amount == old(amount) && paymentMethod == old(paymentMethod) && phoneNumber == old(phoneNumber)
    {
      step := 2;
    }

    /** `handleDonate`: step 2 to 3; no payment is made. */
    method Donate()
      requires Valid() && step == 2
      modifies this
      ensures Valid()
      ensures step == 3 && step > old(step)
      ensures amount == old(amount) && paymentMethod == old(paymentMethod) && phoneNumber == old(phoneNumber)
    {
      step := 3;
    }
  }
}
