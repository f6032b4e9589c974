/** The settings screen: a table of detail pages keyed by setting name, the
    lookup that resolves a key and an optional title into the page to show,
    and the two panes (home list and detail page) it switches between. */
module Settings {
  import opened Text

  /** What the detail pane's body receives. A page's own form markup is
      represented by its key; ComingSoon is the placeholder paragraph. */
  datatype Content = PageContent(key: string) | ComingSoon

  /** The placeholder markup shown for a page the table does not hold. */
  const PlaceholderHtml: string :=
    "<p style=\"text-align: center; padding: 20px; color: #888;\">Nội dung đang cập nhật...</p>"

  /** The title of every page of settingsData. */
  const PageTitles: map<string, string> := map[
    "security" := "Bảo mật & Đăng nhập",
    "notifications" := "Cài đặt thông báo",
    "privacy" := "Quyền riêng tư",
    "payment" := "Thanh toán & Gói",
    "linked-accounts" := "Liên kết tài khoản",
    "appearance" := "Giao diện",
    "family" := "Gia đình",
    "help" := "Trợ giúp & Hỗ trợ",
    "profile-edit" := "Chỉnh sửa hồ sơ"
  ]

  datatype Page = Page(title: string, content: Content)

  /** settingsData[key]: the page, or None (undefined) for an unknown key. */
  function Lookup(key: string): (r: Option<Page>)
    ensures r.Some? <==> key in PageTitles
    ensures r.Some? ==> r.value == Page(PageTitles[key], PageContent(key))
    ensures r.Some? ==> r.value.title != ""
  {
    if key in PageTitles then Some(Page(PageTitles[key], PageContent(key))) else None
  }

  /** JavaScript truthiness of an optional string: null, undefined and the
      empty string are false. */
  predicate Truthy(s: Option<string>) {
    s.Some? && s.value != ""
  }

  /** What the detail pane shows. */
  datatype Detail = Detail(title: string, content: Content)

  /** openSettingsDetail's decision: nothing when the key is unknown and no
      usable title is given; otherwise the given title if it is truthy, else
      the page's own, over the page's content, or the placeholder when the
      key is unknown. */
  function Resolve(key: string, titleOverride: Option<string>): (r: Option<Detail>)
    ensures r.Some? ==> r.value.title != ""
    ensures r.Some? && r.value.content.PageContent? ==> r.value.content.key == key
  {
    var page := Lookup(key);
    if page.None? && !Truthy(titleOverride) then None
    else
      var title := if Truthy(titleOverride) then titleOverride.value else page.value.title;
      var content := if page.Some? then page.value.content else ComingSoon;
      Some(Detail(title, content))
  }

  /** The whole behaviour of Resolve: it declines exactly when the key is
      unknown and the override is missing or empty; otherwise the title is
      the override when truthy and the page title when not, and the content
      is the page's own exactly when the key is known. */
  lemma ResolveRule(key: string, titleOverride: Option<string>)
    ensures Resolve(key, titleOverride).None? <==> key !in PageTitles && !Truthy(titleOverride)
    ensures Resolve(key, titleOverride).Some? ==>
      var d := Resolve(key, titleOverride).value;
      && d.title == (if Truthy(titleOverride) then titleOverride.value else PageTitles[key])
      && (d.content == PageContent(key) <==> key in PageTitles)
      && (d.content == ComingSoon <==> key !in PageTitles)
  {
  }

  /** An empty title override behaves exactly like no override. */
  lemma EmptyOverrideIgnored(key: string)
    ensures Resolve(key, Some("")) == Resolve(key, None)
  {
  }

  /** The profile edit button opens the profile page under its own title. */
  lemma ProfileEditPage()
    ensures Resolve("profile-edit", None) == Some(Detail("Chỉnh sửa hồ sơ", PageContent("profile-edit")))
  {
  }

  /** The two panes of the settings screen, through their inline
      `style.display` (the empty string until a handler first writes it,
      the stylesheet deciding until then), and what the detail pane holds. */
  class SettingsScreen {
    var homeDisplay: string
    var detailDisplay: string
    var detailTitle: string
    var detailContent: Option<Content>

    /** Both panes start without an inline display, so the stylesheet
        decides what shows, and the detail pane is empty. */
    constructor ()
      ensures homeDisplay == "" && detailDisplay == "" && detailTitle == "" && detailContent == None
    {
      homeDisplay := "";
      detailDisplay := "";
      detailTitle := "";
      detailContent := None;
    }

    /** openSettingsDetail: either returns without effect or fills the
        detail pane and shows it in place of the home list. */
    method OpenSettingsDetail(key: string, titleOverride: Option<string>)
      modifies this
      ensures Resolve(key, titleOverride).None? ==>
        homeDisplay == old(homeDisplay) && detailDisplay == old(detailDisplay)
        && detailTitle == old(detailTitle) && detailContent == old(detailContent)
      ensures Resolve(key, titleOverride).Some? ==>
        && homeDisplay == "none" && detailDisplay == "flex"
        && detailTitle == Resolve(key, titleOverride).value.title
        && detailContent == Some(Resolve(key, titleOverride).value.content)
    {
      var detail := Resolve(key, titleOverride);
      if detail.None? {
        return;
      }
      detailTitle := detail.value.title;
      detailContent := Some(detail.value.content);
      homeDisplay := "none";
      detailDisplay := "flex";
    }

    /** closeSettingsDetail, the back button's handler: the home list again;
        the detail pane keeps its content, hidden. */
    method CloseSettingsDetail()
      modifies this
      ensures homeDisplay == "block" && detailDisplay == "none"
      ensures detailTitle == old(detailTitle) && detailContent == old(detailContent)
    {
      detailDisplay := "none";
      homeDisplay := "block";
    }

    /** A click on a settings row: a row with a non-empty data-setting opens
        that page with its own title; a row without one changes nothing. */
    method ItemClick(setting: Option<string>)
      modifies this
      ensures !Truthy(setting) || setting.value !in PageTitles ==>
        homeDisplay == old(homeDisplay) && detailDisplay == old(detailDisplay)
        && detailTitle == old(detailTitle) && detailContent == old(detailContent)
      ensures Truthy(setting) && setting.value in PageTitles ==>
        && homeDisplay == "none" && detailDisplay == "flex"
        && detailTitle == PageTitles[setting.value]
        && detailContent == Some(PageContent(setting.value))
    {
      if Truthy(setting) {
        OpenSettingsDetail(setting.value, None);
      }
    }

    /** The profile edit button. */
    method ProfileEditClick()
      modifies this
      ensures homeDisplay == "none" && detailDisplay == "flex"
      ensures detailTitle == "Chỉnh sửa hồ sơ" && detailContent == Some(PageContent("profile-edit"))
    {
      ProfileEditPage();
      OpenSettingsDetail("profile-edit", None);
    }

    /** A click on any `btn-primary` element while the detail pane's inline
        display is not "none" (which includes the time before it was ever
        opened) closes the detail pane; afterwards it is hidden either way. */
    method PrimaryButtonClick()
      modifies this
      ensures detailDisplay == "none"
      ensures old(detailDisplay) != "none" ==> homeDisplay == "block"
      ensures old(detailDisplay) == "none" ==> homeDisplay == old(homeDisplay)
      ensures detailTitle == old(detailTitle) && detailContent == old(detailContent)
    {
      if detailDisplay != "none" {
        CloseSettingsDetail();
      }
    }
  }
}
