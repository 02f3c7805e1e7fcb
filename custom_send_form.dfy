/** src/components/CustomSendForm.js: sends one gift card with a chosen amount. The checks
    run in a fixed order and the first that fails is shown; the request carries the trimmed
    fields. The React state is the fields of a class; each handler is a method that takes
    the server's reply as a parameter. */
module CustomSendForm {
  import opened JsStrings
  import opened ClientApi
  import Progress
  import BatchSend
  import Cycle
  import Generators
  import NameGenerator
  import MessageGenerator

  const NeedBearer: string := "Please enter Bearer token first"
  const NeedPhone: string := "Please enter recipient phone number"
  const NeedAmount: string := "Please enter a valid amount"
  const NeedSender: string := "Please enter sender name"
  const NeedRecipient: string := "Please enter recipient name"
  const SendFailed: string := "Failed to send gift card"
  const SentPrefix: string := "Gift card sent successfully! Ref ID: "

  /** What `parseFloat(amount)` gives: not a number, or a number that is positive or not. */
  datatype AmountParse = NotANumber | Number(positive: bool)

  /** The amount check `!amount || parseFloat(amount) <= 0`. A text that is not a number
      passes it, since no comparison with NaN holds. */
  predicate AmountRejected(amount: string, parsed: AmountParse)
  {
    amount == "" || (parsed.Number? && !parsed.positive)
  }

  /** The checks of `sendGiftCard` in order: the message of the first that fails. */
  function Validate(bearer: string, phone: string, amount: string, parsed: AmountParse,
                    sender: string, recipient: string): (r: Option<string>)
    ensures r == Some(NeedBearer) <==> bearer == ""
    ensures r == Some(NeedPhone) <==> bearer != "" && IsBlank(phone)
    ensures r == Some(NeedAmount) <==> bearer != "" && !IsBlank(phone) && AmountRejected(amount, parsed)
    ensures r == Some(NeedSender) <==>
      bearer != "" && !IsBlank(phone) && !AmountRejected(amount, parsed) && IsBlank(sender)
    ensures r == Some(NeedRecipient) <==>
      bearer != "" && !IsBlank(phone) && !AmountRejected(amount, parsed) && !IsBlank(sender) && IsBlank(recipient)
    ensures r.None? <==>
      bearer != "" && !IsBlank(phone) && !AmountRejected(amount, parsed) && !IsBlank(sender) && !IsBlank(recipient)
  {
    if bearer == "" then Some(NeedBearer)
    else if IsBlank(phone) then Some(NeedPhone)
    else if AmountRejected(amount, parsed) then Some(NeedAmount)
    else if IsBlank(sender) then Some(NeedSender)
    else if IsBlank(recipient) then Some(NeedRecipient)
    else None
  }

  /** The body of `api.sendCustomGiftCard`. */
  datatype CustomSend = CustomSend(
    bearer: string, templateId: string, amount: string, paymentMethod: string, senderName: string,
    recipientName: string, message: string, recipientPhone: string)

  /** The request for the form's fields, with `parseFloat(amount).toFixed(2)` given as
      `fixedAmount`. */
  function Payload(bearer: string, fixedAmount: string, sender: string, recipient: string,
                   message: string, phone: string): (p: CustomSend)
    ensures p.templateId == "1" && p.paymentMethod == "99" && p.bearer == bearer && p.amount == fixedAmount
    ensures IsTrimmed(p.senderName) && IsTrimmed(p.recipientName) && IsTrimmed(p.recipientPhone)
    ensures IsBlank(message) ==> p.message == BatchSend.DefaultMessage
    ensures !IsBlank(message) ==> p.message == Trim(message) && IsTrimmed(p.message)
  {
    CustomSend(bearer, "1", fixedAmount, "99", Trim(sender), Trim(recipient),
               Or(Trim(message), BatchSend.DefaultMessage), Trim(phone))
  }

  /** A request that passed the checks has non-empty names and phone. */
  lemma ValidPayloadIsFilled(bearer: string, fixedAmount: string, phone: string, amount: string, parsed: AmountParse,
                             sender: string, recipient: string, message: string)
    requires Validate(bearer, phone, amount, parsed, sender, recipient).None?
    ensures var p := Payload(bearer, fixedAmount, sender, recipient, message, phone);
      p.senderName != "" && p.recipientName != "" && p.recipientPhone != "" && p.message != "" && p.bearer != ""
  {
  }

  class CustomSendForm {
    var senderName: string
    var recipientName: string
    var recipientPhone: string
    var amount: string
    var message: string
    var status: string
    var isLoading: bool
    var successData: Option<Json>
    var progress: int

    constructor ()
      ensures senderName == "" && recipientName == "" && recipientPhone == "" && amount == "50.00" && message == ""
      ensures status == "" && !isLoading && successData.None? && progress == 0
    {
      senderName, recipientName, recipientPhone := "", "", "";
      amount := "50.00";
      message := "";
      status := "";
      isLoading := false;
      successData := None;
      progress := 0;
    }

    /** `handleGenerateAll`: an error from the generators becomes the status and no field
        changes; otherwise both names and the message are filled in. */
    method HandleGenerateAll(names: NameGenerator.NameGenerator, messages: MessageGenerator.MessageGenerator)
      requires names.Valid() && messages.Valid()
      modifies this, names, messages
      ensures names.Valid() && messages.Valid()
      ensures !(names.AreNamesLoaded() && messages.AreMessagesLoaded()) ==>
        && status == Generators.StillLoading
        && senderName == old(senderName) && recipientName == old(recipientName) && message == old(message)
        && names.nameIndex == old(names.nameIndex) && messages.msgIndex == old(messages.msgIndex)
      ensures names.AreNamesLoaded() && messages.AreMessagesLoaded() ==>
        && status == old(status)
        && senderName == NameGenerator.FullNameAt(names.firstNames, names.lastNames, old(names.nameIndex))
        && recipientName == NameGenerator.FullNameAt(names.firstNames, names.lastNames,
                                                     Cycle.Step(NameGenerator.Max(|names.firstNames|, |names.lastNames|), old(names.nameIndex)))
        && message == messages.messages[old(messages.msgIndex)]
        && names.nameIndex == Cycle.CursorAfter(NameGenerator.Max(|names.firstNames|, |names.lastNames|), old(names.nameIndex), 2)
        && messages.msgIndex == Cycle.Step(|messages.messages|, old(messages.msgIndex))
      ensures recipientPhone == old(recipientPhone) && amount == old(amount)
      ensures successData == old(successData) && isLoading == old(isLoading) && progress == old(progress)
    {
      var generated := Generators.GenerateAll(names, messages);
      if generated.LoadingError? {
        status := generated.error;
        return;
      }
      senderName := generated.senderName;
      recipientName := generated.recipientName;
      message := generated.message;
    }

    /** `sendGiftCard`, with what `parseFloat` makes of the amount and its two-decimal
        rendering as parameters. A failed check sets its message and sends nothing. A reply
        sets the progress to 100; success shows the reference id and keeps the reply, a
        refusal shows the server's error or the default text. A thrown call shows the error
        and resets the progress. Form fields are never changed. */
    method SendGiftCard(bearerToken: string, parsed: AmountParse, fixedAmount: string, reply: Call<Json>)
      returns (sent: Option<CustomSend>, refresh: bool)
      modifies this
      ensures var v := Validate(bearerToken, recipientPhone, amount, parsed, senderName, recipientName);
        && (v.Some? ==> status == v.value && sent.None? && successData == old(successData) && progress == old(progress))
        && (v.None? ==> sent == Some(Payload(bearerToken, fixedAmount, senderName, recipientName, message, recipientPhone)))
      ensures sent.Some? && reply.Threw? ==> status == "ERROR: " + reply.message && progress == 0 && successData.None?
      ensures sent.Some? && reply.Returned? ==> progress == Progress.Done
      ensures sent.Some? && reply.Returned? && reply.value.success ==>
        status == SentPrefix + reply.value.refId && successData == Some(reply.value)
      ensures sent.Some? && reply.Returned? && !reply.value.success ==>
        status == Or(reply.value.error, SendFailed) && successData.None?
      ensures refresh <==> sent.Some? && reply.Returned? && reply.value.success
      ensures isLoading == (sent.None? && old(isLoading))
      ensures senderName == old(senderName) && recipientName == old(recipientName)
      ensures recipientPhone == old(recipientPhone) && amount == old(amount) && message == old(message)
    {
      var failed := Validate(bearerToken, recipientPhone, amount, parsed, senderName, recipientName);
      if failed.Some? {
        status := failed.value;
        return None, false;
      }
      var request := Payload(bearerToken, fixedAmount, senderName, recipientName, message, recipientPhone);
      refresh := Submit(reply);
      sent := Some(request);
    }

    /** The part of `sendGiftCard` after the checks: the request goes out and its reply is
        shown. */
    method Submit(reply: Call<Json>) returns (refresh: bool)
      modifies this
      ensures reply.Threw? ==> status == "ERROR: " + reply.message && progress == 0 && successData.None?
      ensures reply.Returned? ==> progress == Progress.Done
      ensures reply.Returned? && reply.value.success ==>
        status == SentPrefix + reply.value.refId && successData == Some(reply.value)
      ensures reply.Returned? && !reply.value.success ==>
        status == Or(reply.value.error, SendFailed) && successData.None?
      ensures refresh <==> reply.Returned? && reply.value.success
      ensures !isLoading
      ensures senderName == old(senderName) && recipientName == old(recipientName)
      ensures recipientPhone == old(recipientPhone) && amount == old(amount) && message == old(message)
    {
      isLoading := true;
      status := "";
      successData := None;
      progress := 0;
      refresh := false;
      match reply {
        case Threw(m) =>
          progress := 0;
          status := "ERROR: " + m;
        case Returned(data) =>
          progress := Progress.Done;
          if data.success {
            status := SentPrefix + data.refId;
            successData := Some(data);
            refresh := true;
          } else {
            status := Or(data.error, SendFailed);
          }
      }
      isLoading := false;
    }

    /** `handleSendAnother`: only the success data and the status are cleared. */
    method HandleSendAnother()
      modifies this
      ensures successData.None? && status == ""
      ensures senderName == old(senderName) && recipientName == old(recipientName)
      ensures recipientPhone == old(recipientPhone) && amount == old(amount) && message == old(message)
      ensures isLoading == old(isLoading) && progress == old(progress)
    {
      successData := None;
      status := "";
    }

    /** One tick of the sending progress timer: steps of 10, parked at 90. */
    method ProgressTick()
      modifies this
      ensures progress == Progress.Tick(old(progress), 10)
      ensures 0 <= old(progress) <= Progress.Ceiling && old(progress) % 10 == 0 ==>
        0 <= progress <= Progress.Ceiling && progress % 10 == 0
      ensures senderName == old(senderName) && recipientName == old(recipientName)
      ensures recipientPhone == old(recipientPhone) && amount == old(amount) && message == old(message)
      ensures status == old(status) && successData == old(successData) && isLoading == old(isLoading)
    {
      progress := Progress.Tick(progress, 10);
    }

    /** The half-second timeout after a send. */
    method ResetProgress()
      modifies this
      ensures progress == 0
      ensures senderName == old(senderName) && recipientName == old(recipientName)
      ensures recipientPhone == old(recipientPhone) && amount == old(amount) && message == old(message)
      ensures status == old(status) && successData == old(successData) && isLoading == old(isLoading)
    {
      progress := 0;
    }
  }
}
