/** The purchase conversation: the handlers the bot registers with its
    conversation handler, each returning the next conversation state, and the
    per-user record (`context.user_data`) three of them update in place. */
module Conversation {
  import opened Wrappers
  import opened Catalog
  import opened Payment

  /** The conversation states: CHOOSING_PACKAGE, GETTING_PHONE and
      CHOOSING_TYPE are 0, 1 and 2 (from `range(3)`); End is the library's
      ConversationHandler.END. */
  datatype State = ChoosingPackage | GettingPhone | ChoosingType | End

  /** An update as a handler sees it: a button press and its callback data,
      or a text message (commands such as /menu included). */
  datatype Event = ButtonPress(data: string) | TextMessage(text: string)

  /** What a handler sends back: a text, or a text with a keyboard of one
      button per row. */
  datatype Reply = Text(text: string) | Keyboard(text: string, buttons: seq<Button>)

  /** The Python exceptions the handlers can raise. */
  datatype PyError = KeyError(key: string) | UnboundLocalError(name: string) | AttributeError(name: string)

  /** A handler either returns the next state after sending its replies, or
      raises. */
  datatype Step = Next(state: State, replies: seq<Reply>) | Raised(error: PyError)

  const WelcomeOpening := "WELCOME TO BINGWA SOKONI BOT BY EMMKASH TECH 🥳🎉, "
  const WelcomeClosing := "! SEND /menu TO VIEW DEAL."

  /** The greeting of `start`: the user's first name between a fixed opening
      and a fixed closing. */
  function WelcomeText(firstName: string): (w: string)
    ensures |w| == |WelcomeOpening| + |firstName| + |WelcomeClosing|
    ensures w[..|WelcomeOpening|] == WelcomeOpening
    ensures w[|WelcomeOpening|..|WelcomeOpening| + |firstName|] == firstName
    ensures w[|WelcomeOpening| + |firstName|..] == WelcomeClosing
  {
    WelcomeOpening + firstName + WelcomeClosing
  }

  const DealTypePrompt := "Select a deal type:"
  const CancelledText := "Purchase has been cancelled. You can start again by sending /menu."
  const DealsPrompt := "AVAILABLE DEALS. KUMBUKA KUNUNUA NI MARA MOJA KWA SIKU:✅"

  const SelectedOpening := "You selected: "
  const SelectedClosing := ". Please enter your phone number:"

  /** The prompt of `choose_package`: the chosen package's label between a
      fixed opening and a fixed closing. */
  function SelectedText(packageText: string): (t: string)
    ensures |t| == |SelectedOpening| + |packageText| + |SelectedClosing|
    ensures t[..|SelectedOpening|] == SelectedOpening
    ensures t[|SelectedOpening|..|SelectedOpening| + |packageText|] == packageText
    ensures t[|SelectedOpening| + |packageText|..] == SelectedClosing
  {
    SelectedOpening + packageText + SelectedClosing
  }

  const SummaryOpening := "Package: "
  const SummaryMiddle := "\nPhone Number: "
  const SummaryClosing := "\n\nProceeding with payment..."

  /** The summary of `get_phone_number`: the package label, then the phone
      number exactly as typed, each at a position fixed by what precedes it. */
  function SummaryText(packageText: string, phoneNumber: string): (t: string)
    ensures var phoneAt := |SummaryOpening| + |packageText| + |SummaryMiddle|;
      |t| == phoneAt + |phoneNumber| + |SummaryClosing| &&
      t[..|SummaryOpening|] == SummaryOpening &&
      t[|SummaryOpening|..|SummaryOpening| + |packageText|] == packageText &&
      t[|SummaryOpening| + |packageText|..phoneAt] == SummaryMiddle &&
      t[phoneAt..phoneAt + |phoneNumber|] == phoneNumber &&
      t[phoneAt + |phoneNumber|..] == SummaryClosing
  {
    SummaryOpening + packageText + SummaryMiddle + phoneNumber + SummaryClosing
  }

  /** The greeting names the user unambiguously. */
  lemma WelcomeNamesUser(a: string, b: string)
    requires WelcomeText(a) == WelcomeText(b)
    ensures a == b
  {
    var w := WelcomeText(a);
    assert a == w[|WelcomeOpening|..|WelcomeOpening| + |a|];
  }

  /** The prompt names the chosen package's label unambiguously. */
  lemma SelectedNamesPackage(a: string, b: string)
    requires SelectedText(a) == SelectedText(b)
    ensures a == b
  {
    var t := SelectedText(a);
    assert a == t[|SelectedOpening|..|SelectedOpening| + |a|];
  }

  /** For a given package, the summary shows which phone number is charged. */
  lemma SummaryNamesPhone(packageText: string, a: string, b: string)
    requires SummaryText(packageText, a) == SummaryText(packageText, b)
    ensures a == b
  {
    var t := SummaryText(packageText, a);
    var phoneAt := |SummaryOpening| + |packageText| + |SummaryMiddle|;
    assert a == t[phoneAt..phoneAt + |a|];
  }

  /** `start`: greets the user by first name and ends the conversation.
      `update.message` is None for a button press, so replying raises. */
  function Start(e: Event, firstName: string): (r: Step)
    ensures e.TextMessage? <==> r.Next?
    ensures r.Next? ==> r.state == End && r.replies == [Text(WelcomeText(firstName))]
  {
    match e
    case TextMessage(_) => Next(End, [Text(WelcomeText(firstName))])
    case ButtonPress(_) => Raised(AttributeError("reply_text"))
  }

  /** `show_menu`: offers the three deal types and moves to CHOOSING_TYPE;
      every button it offers is a deal type that has a package table. */
  function ShowMenu(e: Event): (r: Step)
    ensures e.TextMessage? <==> r.Next?
    ensures r.Next? ==> r.state == ChoosingType && |r.replies| == 1 && r.replies[0] == Keyboard(DealTypePrompt, DealTypeButtons)
    ensures r.Next? ==> forall b :: b in r.replies[0].buttons ==> TableFor(b.callbackData).Some?
  {
    match e
    case TextMessage(_) => Next(ChoosingType, [Keyboard(DealTypePrompt, DealTypeButtons)])
    case ButtonPress(_) => Raised(AttributeError("reply_text"))
  }

  /** `cancel_purchase`, as written: it acknowledges `update.callback_query`,
      which is None when the /cancel command (a text message) reaches it, so
      only a button press cancels. */
  function CancelPurchase(e: Event): (r: Step)
    ensures r.Next? <==> e.ButtonPress?
    ensures r.Next? ==> r == Next(End, [Text(CancelledText)])
    ensures e.TextMessage? ==> r == Raised(AttributeError("answer"))
  {
    match e
    case ButtonPress(_) => Next(End, [Text(CancelledText)])
    case TextMessage(_) => Raised(AttributeError("answer"))
  }

  /** `cancel_purchase` as its two registrations intend it: the /cancel
      command and the cancel button both end the conversation with the same
      confirmation. */
  function CancelPurchaseCorrected(e: Event): (r: Step)
    ensures r == Next(End, [Text(CancelledText)])
    ensures e.ButtonPress? ==> r == CancelPurchase(e)
  {
    Next(End, [Text(CancelledText)])
  }

  /** The /cancel command raises in the handler as written and cancels in the
      corrected one. */
  lemma CancelCommandRaises()
    ensures CancelPurchase(TextMessage("/cancel")).Raised?
    ensures CancelPurchaseCorrected(TextMessage("/cancel")).Next?
  {
  }

  /** `context.user_data`: the per-user record the purchase handlers fill
      in. A key the handlers have not stored yet is None. */
  class UserData {
    var dealType: Option<string>
    var package: Option<Package>
    var phoneNumber: Option<string>

    /** The record only ever holds a package taken from the catalog. */
    ghost predicate Valid()
      reads this
    {
      package.Some? ==> InCatalog(package.value)
    }

    constructor ()
      ensures dealType == None && package == None && phoneNumber == None
      ensures Valid()
    {
      dealType, package, phoneNumber := None, None, None;
    }

    /** `choose_type`: stores the pressed deal type, then builds one button
        per package of that deal type's table, in table order, and appends the
        cancel button. For a deal type none of the if/elif branches knows,
        `keyboard` is never bound and the append raises. */
    method ChooseType(e: Event) returns (r: Step)
      modifies this
      ensures package == old(package) && phoneNumber == old(phoneNumber)
      ensures e.TextMessage? ==> r == Raised(AttributeError("answer")) && dealType == old(dealType)
      ensures e.ButtonPress? ==> dealType == Some(e.data)
      ensures e.ButtonPress? && TableFor(e.data).None? ==> r == Raised(UnboundLocalError("keyboard"))
      ensures e.ButtonPress? && TableFor(e.data).Some? ==>
        var t := TableFor(e.data).value;
        r.Next? && r.state == ChoosingPackage && |r.replies| == 1 &&
        r.replies[0].Keyboard? && r.replies[0].text == DealsPrompt &&
        var menu := r.replies[0].buttons;
        |menu| == |t| + 1 && menu[|t|] == CancelButton &&
        forall i :: 0 <= i < |t| ==> menu[i] == Button(t[i].package.text, t[i].key)
      ensures old(Valid()) ==> Valid()
    {
      if e.TextMessage? {
        return Raised(AttributeError("answer"));
      }
      var data := e.data;
      dealType := Some(data);
      var keyboard: Option<seq<Button>> := None;
      if data == "data" {
        keyboard := Some(PackageButtons(DataPackages));
      } else if data == "sms" {
        keyboard := Some(PackageButtons(SmsPackages));
      } else if data == "minutes" {
        keyboard := Some(PackageButtons(MinutesPackages));
      }
      if keyboard.None? {
        return Raised(UnboundLocalError("keyboard"));
      }
      var menu := keyboard.value + [CancelButton];
      r := Next(ChoosingPackage, [Keyboard(DealsPrompt, menu)]);
    }

    /** `choose_package`: reads the stored deal type and stores exactly the
        package its table holds under the pressed key, then asks for the
        phone number. A missing deal type or a key absent from the table
        raises KeyError and stores nothing. For a stored deal type no branch
        knows, nothing is stored and the prompt names whatever package the
        record already held. */
    method ChoosePackage(e: Event) returns (r: Step)
      modifies this
      ensures dealType == old(dealType) && phoneNumber == old(phoneNumber)
      ensures e.TextMessage? ==> r == Raised(AttributeError("answer")) && package == old(package)
      ensures e.ButtonPress? && old(dealType).None? ==> r == Raised(KeyError("deal_type")) && package == old(package)
      ensures e.ButtonPress? && old(dealType).Some? && TableFor(old(dealType).value).Some? ==>
        var found := Lookup(TableFor(old(dealType).value).value, e.data);
        if found.Some? then
          package == found && r == Next(GettingPhone, [Text(SelectedText(found.value.text))])
        else
          package == old(package) && r == Raised(KeyError(e.data))
      ensures e.ButtonPress? && old(dealType).Some? && TableFor(old(dealType).value).None? ==>
        package == old(package) &&
        r == if package.Some? then Next(GettingPhone, [Text(SelectedText(package.value.text))])
             else Raised(KeyError("package"))
      ensures old(Valid()) ==> Valid()
    {
      if e.TextMessage? {
        return Raised(AttributeError("answer"));
      }
      var packageNumber := e.data;
      if dealType.None? {
        return Raised(KeyError("deal_type"));
      }
      var deal := dealType.value;
      if deal == "data" {
        var found := Lookup(DataPackages, packageNumber);
        if found.None? { return Raised(KeyError(packageNumber)); }
        package := found;
      } else if deal == "sms" {
        var found := Lookup(SmsPackages, packageNumber);
        if found.None? { return Raised(KeyError(packageNumber)); }
        package := found;
      } else if deal == "minutes" {
        var found := Lookup(MinutesPackages, packageNumber);
        if found.None? { return Raised(KeyError(packageNumber)); }
        package := found;
      }
      if package.None? {
        return Raised(KeyError("package"));
      }
      ghost var known := deal in {"data", "sms", "minutes"};
      if known {
        LookupInCatalog(deal, packageNumber);
      }
      r := Next(GettingPhone, [Text(SelectedText(package.value.text))]);
    }

    /** `choose_package` as the cancel button it offers intends it: the
        button's `cancel_purchase` ends the conversation with the cancel
        notice and leaves the record as it was; every other update is
        handled as `choose_package` handles it. */
    method ChoosePackageCorrected(e: Event) returns (r: Step)
      modifies this
      ensures dealType == old(dealType) && phoneNumber == old(phoneNumber)
      ensures e == ButtonPress(CancelKey) ==> r == Next(End, [Text(CancelledText)]) && package == old(package)
      ensures e.TextMessage? ==> r == Raised(AttributeError("answer")) && package == old(package)
      ensures e != ButtonPress(CancelKey) && e.ButtonPress? && old(dealType).None? ==>
        r == Raised(KeyError("deal_type")) && package == old(package)
      ensures e != ButtonPress(CancelKey) && e.ButtonPress? &&
              old(dealType).Some? && TableFor(old(dealType).value).Some? ==>
        var found := Lookup(TableFor(old(dealType).value).value, e.data);
        if found.Some? then
          package == found && r == Next(GettingPhone, [Text(SelectedText(found.value.text))])
        else
          package == old(package) && r == Raised(KeyError(e.data))
      ensures e != ButtonPress(CancelKey) && e.ButtonPress? &&
              old(dealType).Some? && TableFor(old(dealType).value).None? ==>
        package == old(package) &&
        r == if package.Some? then Next(GettingPhone, [Text(SelectedText(package.value.text))])
             else Raised(KeyError("package"))
      ensures old(Valid()) ==> Valid()
    {
      if e == ButtonPress(CancelKey) {
        return CancelPurchaseCorrected(e);
      }
      r := ChoosePackage(e);
    }

    /** `get_phone_number`: stores the message text unchanged as the phone
        number, then starts the payment with that phone and the stored
        package's price. `gateway` is what posting `request` comes to. The
        conversation ends whatever the payment outcome: initiate_stk_push
        catches every exception. */
    method GetPhoneNumber(e: Event, gateway: Exchange) returns (r: Step, request: Option<Payload>)
      modifies this
      ensures dealType == old(dealType) && package == old(package)
      ensures e.ButtonPress? ==> r == Raised(AttributeError("text")) && request == None && phoneNumber == old(phoneNumber)
      ensures e.TextMessage? ==> phoneNumber == Some(e.text)
      ensures e.TextMessage? && package.None? ==> r == Raised(KeyError("package")) && request == None
      ensures e.TextMessage? && package.Some? ==>
        request == Some(StkPushPayload(e.text, package.value.price)) &&
        r == Next(End, [Text(SummaryText(package.value.text, e.text)), Text(Message(Classify(gateway)))])
      ensures Valid() && request.Some? ==> request.value.amount > 0
      ensures old(Valid()) ==> Valid()
    {
      if e.ButtonPress? {
        r, request := Raised(AttributeError("text")), None;
        return;
      }
      var phone := e.text;
      phoneNumber := Some(phone);
      if package.None? {
        r, request := Raised(KeyError("package")), None;
        return;
      }
      var selected := package.value;
      var summary := Text(SummaryText(selected.text, phone));
      if Valid() {
        CatalogPricesPositive(selected);
      }
      request := Some(StkPushPayload(phone, selected.price));
      var outcome := Classify(gateway);
      r := Next(End, [summary, Text(Message(outcome))]);
    }
  }

  /** A purchase from the deal-type menu on, for a user with an empty record:
      press a deal type, press a package key, send a phone number. `states`
      lists the states the handlers return until one raises, and `failure`
      is the exception that stopped it, if any. The payment
      request goes out exactly when the deal type has a table that holds the
      key, and it charges that package's price, which is positive and is the
      price its label shows, to the phone number as typed. */
  method Purchase(dealType: string, key: string, phone: string, gateway: Exchange)
    returns (states: seq<State>, failure: Option<PyError>, request: Option<Payload>)
    ensures TableFor(dealType).None? ==>
      states == [] && failure == Some(UnboundLocalError("keyboard")) && request == None
    ensures TableFor(dealType).Some? && Lookup(TableFor(dealType).value, key).None? ==>
      states == [ChoosingPackage] && failure == Some(KeyError(key)) && request == None
    ensures TableFor(dealType).Some? && Lookup(TableFor(dealType).value, key).Some? ==>
      var p := Lookup(TableFor(dealType).value, key).value;
      states == [ChoosingPackage, GettingPhone, End] && failure == None &&
      request == Some(StkPushPayload(phone, p.price)) &&
      p.price > 0 && ShowsPrice(p.text, p.price)
  {
    var user := new UserData();
    var chosen := user.ChooseType(ButtonPress(dealType));
    if chosen.Raised? {
      return [], Some(chosen.error), None;
    }
    var selected := user.ChoosePackage(ButtonPress(key));
    if selected.Raised? {
      return [chosen.state], Some(selected.error), None;
    }
    LookupInCatalog(dealType, key);
    var paid;
    paid, request := user.GetPhoneNumber(TextMessage(phone), gateway);
    states, failure := [chosen.state, selected.state, paid.state], None;
  }

  /** The deals menu shown in CHOOSING_PACKAGE ends with the cancel button,
      and a press on it reaches `choose_package`, whose state handler takes
      every button press. No table holds `cancel_purchase`, so the press
      raises KeyError instead of cancelling, and nothing is stored. */
  method CancelButtonWhileChoosingPackage(dealType: string) returns (shown: Step, pressed: Step)
    ensures TableFor(dealType).Some? ==>
      shown.Next? && shown.state == ChoosingPackage && |shown.replies| == 1 &&
      shown.replies[0].Keyboard? && CancelButton in shown.replies[0].buttons
    ensures TableFor(dealType).Some? ==> pressed == Raised(KeyError(CancelKey))
  {
    var user := new UserData();
    shown := user.ChooseType(ButtonPress(dealType));
    CancelKeyNotInCatalog();
    pressed := user.ChoosePackage(ButtonPress(CancelButton.callbackData));
    if TableFor(dealType).Some? {
      var t := TableFor(dealType).value;
      assert shown.replies[0].buttons[|t|] == CancelButton;
    }
  }

  /** With the corrected handler, the same press ends the conversation with
      the cancel notice. */
  method CancelButtonWhileChoosingPackageCorrected(dealType: string) returns (shown: Step, pressed: Step)
    ensures TableFor(dealType).Some? ==>
      shown.Next? && shown.state == ChoosingPackage && |shown.replies| == 1 &&
      shown.replies[0].Keyboard? && CancelButton in shown.replies[0].buttons
    ensures pressed == Next(End, [Text(CancelledText)])
  {
    var user := new UserData();
    shown := user.ChooseType(ButtonPress(dealType));
    pressed := user.ChoosePackageCorrected(ButtonPress(CancelButton.callbackData));
    if TableFor(dealType).Some? {
      var t := TableFor(dealType).value;
      assert shown.replies[0].buttons[|t|] == CancelButton;
    }
  }
}
