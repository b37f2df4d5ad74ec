/** The WhatsApp bot builder (web/src/views/WhatsAppBotView.tsx): the
    three-step wizard, the guard on creating a bot, and the scripted demo
    chat that plays one message per tick. */
module Bot {
  import opened Text

  /** One message of the demo chat. */
  datatype DemoMessage = DemoMessage(text: string, isBot: bool)

  const RuQuestion1: string := "Привет! Сколько стоит доставка?"
  const RuAnswer1: string := "Здравствуйте! 👋 Доставка по городу бесплатная при заказе от 5000₸. Стандартная доставка - 1000₸. Чем еще могу помочь?"
  const RuQuestion2: string := "А когда доставите?"
  const RuAnswer2: string := "Доставка в течение 1-2 часов! 🚀 Хотите оформить заказ?"
  const EnQuestion1: string := "Hi! How much is delivery?"
  const EnAnswer1: string := "Hello! 👋 Free delivery for orders over $50. Standard delivery - $5. How else can I help?"
  const EnQuestion2: string := "When will it arrive?"
  const EnAnswer2: string := "Delivery within 1-2 hours! 🚀 Would you like to place an order?"

  /** The scripted demo conversation in the screen's language: a customer
      question and the bot's answer, twice. */
  function DemoScript(ru: bool): (s: seq<DemoMessage>)
    ensures |s| == 4
    ensures forall i :: 0 <= i < |s| ==> (s[i].isBot <==> i % 2 == 1)
  {
    if ru then
      [DemoMessage(RuQuestion1, false), DemoMessage(RuAnswer1, true),
       DemoMessage(RuQuestion2, false), DemoMessage(RuAnswer2, true)]
    else
      [DemoMessage(EnQuestion1, false), DemoMessage(EnAnswer1, true),
       DemoMessage(EnQuestion2, false), DemoMessage(EnAnswer2, true)]
  }

  /** The wizard screen. `demoIndex` is the interval's counter and
      `demoRunning` whether the interval is still set. */
  class BotWizard {
    const ru: bool
    const script: seq<DemoMessage>
    var botName: string
    var businessType: string
    var step: nat
    var showDemo: bool
    var demoMessages: seq<DemoMessage>
    var demoIndex: nat
    var demoRunning: bool

    /** The step is 1, 2 or 3; the demo shows a prefix of the script, the
        messages delivered so far, and runs only once it is shown. */
    predicate Valid()
      reads this
    {
      && 1 <= step <= 3
      && |script| == 4
      && demoIndex <= |script| && demoMessages == script[..demoIndex]
      && (!showDemo ==> demoIndex == 0 && !demoRunning)
    }

    constructor (ru: bool)
      ensures Valid() && this.ru == ru && script == DemoScript(ru) && step == 1 && botName == "" && businessType == ""
      ensures !showDemo && demoMessages == [] && !demoRunning
    {
      this.ru := ru;
      script := DemoScript(ru);
      botName := "";
      businessType := "";
      step := 1;
      showDemo := false;
      demoMessages := [];
      demoIndex := 0;
      demoRunning := false;
    }

    /** The call to action on step 1 opens step 2. */
    method StartWizard()
      requires Valid()
      modifies this
      ensures Valid()
      ensures step == if old(step) == 1 then 2 else old(step)
      ensures botName == old(botName) && businessType == old(businessType)
      ensures showDemo == old(showDemo) && demoMessages == old(demoMessages) && demoRunning == old(demoRunning)
      ensures demoIndex == old(demoIndex)
    {
      if step == 1 {
        step := 2;
      }
    }

    /** Back on step 2 returns to step 1. */
    method Back()
      requires Valid()
      modifies this
      ensures Valid()
      ensures step == if old(step) == 2 then 1 else old(step)
      ensures botName == old(botName) && businessType == old(businessType)
      ensures showDemo == old(showDemo) && demoMessages == old(demoMessages) && demoRunning == old(demoRunning)
      ensures demoIndex == old(demoIndex)
    {
      if step == 2 {
        step := 1;
      }
    }

    method SetBotName(name: string)
      requires Valid()
      modifies this
      ensures Valid() && botName == name
      ensures step == old(step) && businessType == old(businessType)
      ensures showDemo == old(showDemo) && demoMessages == old(demoMessages) && demoRunning == old(demoRunning)
      ensures demoIndex == old(demoIndex)
    {
      botName := name;
    }

    method SelectBusinessType(id: string)
      requires Valid()
      modifies this
      ensures Valid() && businessType == id
      ensures step == old(step) && botName == old(botName)
      ensures showDemo == old(showDemo) && demoMessages == old(demoMessages) && demoRunning == old(demoRunning)
      ensures demoIndex == old(demoIndex)
    {
      businessType := id;
    }

    /** `handleCreate`: nothing happens when the trimmed name is empty or
        no business type is chosen; otherwise, after the simulated delay,
        the wizard shows step 3. */
    method HandleCreate()
      requires Valid()
      modifies this
      ensures Valid()
      ensures step == if IsBlank(old(botName)) || old(businessType) == "" then old(step) else 3
      ensures botName == old(botName) && businessType == old(businessType)
      ensures showDemo == old(showDemo) && demoMessages == old(demoMessages) && demoRunning == old(demoRunning)
      ensures demoIndex == old(demoIndex)
    {
      if IsBlank(botName) || businessType == "" {
        return;
      }
      step := 3;
    }

    /** Showing the demo: the demo starts only when it is shown and has no
        messages yet. */
    method ShowDemo()
      requires Valid()
      modifies this
      ensures Valid() && showDemo
      ensures old(demoMessages) == [] ==> demoRunning && demoIndex == 0 && demoMessages == []
      ensures old(demoMessages) != [] ==> demoRunning == old(demoRunning) && demoMessages == old(demoMessages)
      ensures step == old(step) && botName == old(botName) && businessType == old(businessType)
    {
      showDemo := true;
      if demoMessages == [] {
        demoIndex := 0;
        demoRunning := true;
      }
    }

    /** One tick of the demo interval: the next scripted message is
        appended, or, after the last, the interval is cleared. */
    method DemoTick()
      requires Valid() && demoRunning
      modifies this
      ensures Valid() && showDemo == old(showDemo)
      ensures old(demoIndex) < |script| ==>
        demoMessages == old(demoMessages) + [script[old(demoIndex)]] && demoRunning
      ensures old(demoIndex) == |script| ==> demoMessages == old(demoMessages) && !demoRunning
      ensures step == old(step) && botName == old(botName) && businessType == old(businessType)
    {
      if demoIndex < |script| {
        assert script[..demoIndex + 1] == script[..demoIndex] + [script[demoIndex]];
        demoMessages := demoMessages + [script[demoIndex]];
        demoIndex := demoIndex + 1;
      } else {
        demoRunning := false;
      }
    }

    /** Running the demo interval until it clears itself delivers the whole
        script, in order, and then stops. */
    method RunDemo()
      requires Valid() && demoRunning
      modifies this
      ensures Valid() && !demoRunning && demoMessages == script && showDemo
      ensures step == old(step) && botName == old(botName) && businessType == old(businessType)
    {
      while demoRunning
        invariant Valid() && showDemo
        invariant !demoRunning ==> demoIndex == |script|
        invariant step == old(step) && botName == old(botName) && businessType == old(businessType)
        decreases demoRunning, |script| - demoIndex
      {
        DemoTick();
      }
      assert script[..demoIndex] == script;
    }

    /** The typing indicator below the demo messages. */
    function TypingShown(): (shown: bool)
      requires Valid()
      reads this
      ensures shown <==> showDemo && demoIndex < |script|
    {
      showDemo && |demoMessages| < 4
    }
  }
}
