/** The page-level state: the `state` record, the navigation between the
    five tabs, and the chat overlay used by onboarding and by clicks on the
    journey path. */
module App {
  import opened Text
  import Journey

  datatype Sender = Bot | User

  /** How addMessage inserts the text: as markup (innerHTML) or verbatim
      (textContent). */
  datatype Rendering = Html | PlainText

  datatype ChatMessage = ChatMessage(text: string, sender: Sender, rendering: Rendering)

  /** The header title of each tab. */
  const TabTitles: map<string, string> := map[
    "profile" := "Tổng quan",
    "journey" := "Hành trình",
    "marketplace" := "Cửa hàng",
    "identity" := "Định danh Số",
    "settings" := "Cài đặt"
  ]

  /** `titles[tabId]` written to textContent: an unknown tab gives undefined,
      which leaves the header empty, and only then is the header empty. */
  function TabTitle(tabId: string): (r: string)
    ensures r != "" <==> tabId in TabTitles
    ensures tabId in TabTitles ==> r == TabTitles[tabId]
  {
    if tabId in TabTitles then TabTitles[tabId] else ""
  }

  /** The `active` class of each element of a list after
      `classList.toggle('active', tab === tabId)`. */
  function ActiveFlags(tabs: seq<string>, tabId: string): (r: seq<bool>)
    ensures |r| == |tabs|
    ensures forall k :: 0 <= k < |r| ==> (r[k] <==> tabs[k] == tabId)
  {
    seq(|tabs|, k requires 0 <= k < |tabs| => tabs[k] == tabId)
  }

  /** Number of set flags. */
  function CountActive(flags: seq<bool>): nat {
    if flags == [] then 0
    else CountActive(flags[..|flags| - 1]) + (if flags[|flags| - 1] then 1 else 0)
  }

  /** As many entries are marked active as carry the tab id: exactly one
      when the id occurs once, none when it does not occur. */
  lemma {:induction false} ActiveCount(tabs: seq<string>, tabId: string)
    ensures CountActive(ActiveFlags(tabs, tabId)) == multiset(tabs)[tabId]
  {
    if tabs != [] {
      var init := tabs[..|tabs| - 1];
      assert tabs == init + [tabs[|tabs| - 1]];
      assert ActiveFlags(tabs, tabId)[..|tabs| - 1] == ActiveFlags(init, tabId);
      ActiveCount(init, tabId);
    }
  }

  /** The forEach over a list of navigation entries: each entry's flag is
      set when its data-tab equals the tab id and cleared otherwise. */
  method ToggleActive(tabs: seq<string>, flags: seq<bool>, tabId: string) returns (r: seq<bool>)
    requires |flags| == |tabs|
    ensures r == ActiveFlags(tabs, tabId)
  {
    r := flags;
    var k := 0;
    while k < |tabs|
      invariant 0 <= k <= |tabs| && |r| == |tabs|
      invariant forall j :: 0 <= j < k ==> (r[j] <==> tabs[j] == tabId)
    {
      r := r[k := tabs[k] == tabId];
      k := k + 1;
    }
  }

  /** The views' part of switchTab: every view loses the class `active`,
      then the element whose id is the tab id (the first one, as
      getElementById finds it) gains it. With distinct view ids this marks
      exactly the views whose id is the tab id. */
  method ActivateView(viewIds: seq<string>, flags: seq<bool>, tabId: string) returns (r: seq<bool>)
    requires |flags| == |viewIds|
    requires forall i, j :: 0 <= i < j < |viewIds| ==> viewIds[i] != viewIds[j]
    ensures r == ActiveFlags(viewIds, tabId)
  {
    r := flags;
    var k := 0;
    while k < |r|
      invariant 0 <= k <= |r| && |r| == |viewIds|
      invariant forall j :: 0 <= j < k ==> !r[j]
    {
      r := r[k := false];
      k := k + 1;
    }
    k := 0;
    while k < |viewIds| && viewIds[k] != tabId
      invariant 0 <= k <= |viewIds|
      invariant forall j :: 0 <= j < k ==> viewIds[j] != tabId
    {
      k := k + 1;
    }
    if k < |viewIds| {
      r := r[k := true];
    }
  }

  // The bot's lines, inserted as markup.
  const Greeting: seq<string> := [
    "Xin chào! Tôi là <strong>Mone</strong>. 👋",
    "Tôi sẽ giúp bạn quản lý tài chính và bảo vệ danh tính.",
    "Để bắt đầu, vui lòng nhập <strong>Số điện thoại</strong> để tôi tạo hồ sơ bảo mật."
  ]

  function ScanningLine(text: string): string {
    "Đang quét dữ liệu cho <strong>" + text + "</strong>... 📡"
  }

  const CleanLine: string := "✅ <strong>Tuyệt vời!</strong> Hồ sơ của bạn sạch sẽ."
  const XpLine: string := "Tôi đã cộng <strong>+50 XP</strong> vào tài khoản của bạn. Hãy khám phá ứng dụng ngay!"

  /** The replies to a submitted phone number, in order. */
  function Replies(text: string): (r: seq<ChatMessage>)
    ensures |r| == 3
    ensures forall k :: 0 <= k < 3 ==> r[k].sender == Bot && r[k].rendering == Html
  {
    [ChatMessage(ScanningLine(text), Bot, Html),
     ChatMessage(CleanLine, Bot, Html),
     ChatMessage(XpLine, Bot, Html)]
  }

  class App {
    // The `state` record.
    var mode: string
    var onboardingComplete: bool
    var currentTab: string
    var xp: nat
    var streak: nat

    // Navigation: the data-tab of each sidebar link and bottom-bar item, the
    // id of each view, and which of them carry the class `active`.
    var sidebarTabs: seq<string>
    var sidebarActive: seq<bool>
    var bottomTabs: seq<string>
    var bottomActive: seq<bool>
    var viewIds: seq<string>
    var viewActive: seq<bool>
    var headerTitle: string

    // The chat overlay.
    var overlayVisible: bool
    var chat: seq<ChatMessage>
    var inputValue: string
    var inputEnabled: bool

    predicate Valid()
      reads this
    {
      && |sidebarActive| == |sidebarTabs|
      && |bottomActive| == |bottomTabs|
      && |viewActive| == |viewIds|
      && (forall i, j :: 0 <= i < j < |viewIds| ==> viewIds[i] != viewIds[j])
    }

    /** The initial `state` record, over the page's navigation entries and
        views, with the profile tab shown and the chat closed. */
    constructor (sidebar: seq<string>, bottom: seq<string>, views: seq<string>)
      requires forall i, j :: 0 <= i < j < |views| ==> views[i] != views[j]
      ensures Valid()
      ensures mode == "desktop" && !onboardingComplete && currentTab == "profile" && xp == 0 && streak == 1
      ensures sidebarTabs == sidebar && bottomTabs == bottom && viewIds == views
      ensures sidebarActive == ActiveFlags(sidebar, "profile") && bottomActive == ActiveFlags(bottom, "profile")
      ensures viewActive == ActiveFlags(views, "profile") && headerTitle == TabTitle("profile")
      ensures !overlayVisible && chat == [] && inputValue == "" && !inputEnabled
    {
      mode := "desktop";
      onboardingComplete := false;
      currentTab := "profile";
      xp := 0;
      streak := 1;
      sidebarTabs, bottomTabs, viewIds := sidebar, bottom, views;
      sidebarActive := ActiveFlags(sidebar, "profile");
      bottomActive := ActiveFlags(bottom, "profile");
      viewActive := ActiveFlags(views, "profile");
      headerTitle := TabTitle("profile");
      overlayVisible := false;
      chat := [];
      inputValue := "";
      inputEnabled := false;
    }

    /** switchTab: records the tab, marks active exactly the view, sidebar
        link and bottom item that belong to it, and sets the header title. */
    method SwitchTab(tabId: string)
      requires Valid()
      modifies this`currentTab, this`viewActive, this`sidebarActive, this`bottomActive, this`headerTitle
      ensures Valid()
      ensures currentTab == tabId
      ensures viewActive == ActiveFlags(viewIds, tabId)
      ensures sidebarActive == ActiveFlags(sidebarTabs, tabId)
      ensures bottomActive == ActiveFlags(bottomTabs, tabId)
      ensures headerTitle == TabTitle(tabId)
    {
      currentTab := tabId;
      viewActive := ActivateView(viewIds, viewActive, tabId);
      sidebarActive := ToggleActive(sidebarTabs, sidebarActive, tabId);
      bottomActive := ToggleActive(bottomTabs, bottomActive, tabId);
      headerTitle := TabTitle(tabId);
    }

    /** The onboarding greeting: three bot lines, then the input opens. */
    method StartOnboarding()
      requires Valid()
      modifies this`chat, this`inputEnabled
      ensures Valid()
      ensures chat == old(chat) + seq(3, k requires 0 <= k < 3 => ChatMessage(Greeting[k], Bot, Html))
      ensures inputEnabled
    {
      var lines := chat;
      var k := 0;
      while k < 3
        invariant 0 <= k <= 3
        invariant lines == chat + seq(k, j requires 0 <= j < k => ChatMessage(Greeting[j], Bot, Html))
      {
        lines := lines + [ChatMessage(Greeting[k], Bot, Html)];
        k := k + 1;
      }
      chat := lines;
      inputEnabled := true;
    }

    /** sendMessage up to the point the overlay starts to fade: blank input
        (after trimming) is ignored; otherwise the trimmed text is echoed
        verbatim as the user's line, the bot replies, the input is cleared
        and locked, and XP is set to 50, not increased by 50. */
    method SendMessage()
      requires Valid()
      modifies this`chat, this`xp, this`inputValue, this`inputEnabled
      ensures Valid()
      ensures Trim(old(inputValue)) == "" ==>
        chat == old(chat) && xp == old(xp) && inputValue == old(inputValue) && inputEnabled == old(inputEnabled)
      ensures Trim(old(inputValue)) != "" ==>
        && chat == old(chat) + [ChatMessage(Trim(old(inputValue)), User, PlainText)] + Replies(Trim(old(inputValue)))
        && xp == 50 && inputValue == "" && !inputEnabled
    {
      var text := Trim(inputValue);
      if text == "" {
        return;
      }
      inputValue := "";
      inputEnabled := false;
      chat := chat + [ChatMessage(text, User, PlainText)];
      chat := chat + Replies(text);
      xp := 50;
    }

    /** A key press in the input: Enter sends, but only while the input is
        enabled; any other key, a locked input or blank text changes
        nothing. */
    method KeyPress(key: string)
      requires Valid()
      modifies this`chat, this`xp, this`inputValue, this`inputEnabled
      ensures Valid()
      ensures key != "Enter" || !old(inputEnabled) || Trim(old(inputValue)) == "" ==>
        chat == old(chat) && xp == old(xp) && inputValue == old(inputValue) && inputEnabled == old(inputEnabled)
      ensures key == "Enter" && old(inputEnabled) && Trim(old(inputValue)) != "" ==>
        && chat == old(chat) + [ChatMessage(Trim(old(inputValue)), User, PlainText)] + Replies(Trim(old(inputValue)))
        && xp == 50 && inputValue == "" && !inputEnabled
    {
      if key == "Enter" && inputEnabled {
        SendMessage();
      }
    }

    /** The timers sendMessage starts: the overlay goes away, onboarding is
        marked done and the profile tab is shown. */
    method FinishOnboarding()
      requires Valid()
      modifies this`overlayVisible, this`onboardingComplete
      modifies this`currentTab, this`viewActive, this`sidebarActive, this`bottomActive, this`headerTitle
      ensures Valid()
      ensures !overlayVisible && onboardingComplete
      ensures currentTab == "profile" && headerTitle == "Tổng quan"
      ensures viewActive == ActiveFlags(viewIds, "profile")
      ensures sidebarActive == ActiveFlags(sidebarTabs, "profile")
      ensures bottomActive == ActiveFlags(bottomTabs, "profile")
    {
      overlayVisible := false;
      onboardingComplete := true;
      SwitchTab("profile");
    }

    /** A click on the journey path: a lesson node opens the overlay with a
        fresh chat holding only its prompt, inserted as plain text, and
        enables the input; a chest node is not a target of the handler. */
    method NodeClick(v: Journey.NodeView)
      requires Valid()
      modifies this`overlayVisible, this`chat, this`inputEnabled
      ensures Valid()
      ensures Journey.NodeClick(v).None? ==>
        overlayVisible == old(overlayVisible) && chat == old(chat) && inputEnabled == old(inputEnabled)
      ensures Journey.NodeClick(v).Some? ==>
        && overlayVisible && inputEnabled
        && chat == [ChatMessage(Journey.NodeClick(v).value, Bot, PlainText)]
    {
      var message := Journey.NodeClick(v);
      if message.None? {
        return;
      }
      overlayVisible := true;
      chat := [];
      chat := chat + [ChatMessage(message.value, Bot, PlainText)];
      inputEnabled := true;
    }

    /** The close button, or a click on the overlay's backdrop. */
    method CloseChat()
      requires Valid()
      modifies this`overlayVisible
      ensures Valid()
      ensures !overlayVisible
    {
      overlayVisible := false;
    }
  }
}
