# Mone web prototype: a verified model of its page logic

Mone is a single-page prototype of a personal-finance app. Its `script.js`
wires five tabs (profile, journey, marketplace, identity, settings) to a chat
overlay and a few static data tables. Most of the file manipulates the DOM.
This project models, in Dafny, the parts that are deterministic data logic,
and proves what they do.

- **Journey** (`journey.dfy`): the generator of the 100-step learning path.
  It is a counted loop with mutable `type`/`status`/`xp` locals, modelled as
  a method with loop invariants, proved equal to a function (`JourneyData`). The module also
  models the data each rendered node carries, including the winding offset
  taken from `[0, 50, 0, -50]` by position, and the prompt a click on a
  lesson node produces.
- **Marketplace** (`marketplace.dfy`): the eight-product catalog and the
  category filter behind the market tabs.
- **Benefits** (`benefits.dfy`): the table from verification category to its
  partner offers, held by a class. Confirming a category unlocks its offers
  in place, one by one. A nested loop flattens the table into the rendered
  list.
- **Settings** (`settings.dfy`): resolving a settings key and an optional
  title into the detail page to show, and the home/detail panes.
- **App** (`app.dfy`): the `state` record, tab switching, the onboarding
  chat, and the overlay opened by journey clicks.
- **Text** (`text.dfy`): `String.prototype.trim`, and the decimal text of a
  number as JavaScript writes it into an attribute or a template.

The generator tests `i % 5` before `i % 10` (script.js:443-449). The
`else if (i % 10 === 0)` branch at script.js:446-448 would give 500 XP big
chests, but it never runs: every multiple of ten is a multiple of five and is
already made a 200 XP `chest` by the first test. The model keeps both tests
in the code's order, and `BigChestUnreachable` and `KindRule` prove that no
big chest is produced. The rendering code for big chests (an 80 px
image) is modelled too, and is simply never reached from the generated data.

A click on a lesson node adds its prompt with `addMessage(message, 'bot')`.
The default type of that call is `'text'`, so the message is inserted as
`textContent`. Its `<b>` tags therefore show up literally, where the
onboarding lines (inserted as HTML) are formatted. The model records this
as the `PlainText` rendering of that chat message.

`startOnboarding` is modelled as written (script.js:99-107), but its only
call, the automatic start at load, is commented out (script.js:214-220). In
this version of the page nothing calls it.

## Model

| member | source | states |
|---|---|---|
| Text.Trim | script.js:111 | the trimmed text is an infix of the input with only whitespace removed around it; it starts and ends with non-whitespace, and it is empty exactly when the input is all whitespace |
| Text.Digits | script.js:488 | the decimal text of an id has at least one digit, no leading zero, and a single digit exactly below ten |
| Text.ParseDigits | script.js:488 | reading the decimal text of a number back gives the number |
| Text.DigitsInjective | script.js:488 | distinct ids get distinct `data-step` texts |
| Journey.KindAndXp | script.js:443-449 | the reward follows the type (lesson 50, chest 200, big chest 500), and the type is a lesson exactly when neither five nor ten divides the id |
| Journey.Record | script.js:454-458 | the pushed record carries exactly the id, type, status and XP the loop computed |
| Journey.RecordShape | script.js:452-462 | a record's icon is empty exactly for a chest; a lesson takes topic `(id - 1) % 8`'s name; a chest has the reward label as topic and label |
| Journey.MilestoneAt | script.js:434-462 | record `i` has id `i` and the demo status (its type is given by `ChestAt` and `KindRule`) |
| Journey.JourneyData | script.js:429-465 | the returned array has 100 records, with id `k + 1` at position `k` |
| Journey.BigChestUnreachable | script.js:443-449 | the type/xp test yields a 200 XP chest exactly for multiples of five and a 50 XP lesson otherwise; the 500 XP big chest is never chosen |
| Journey.GenerateJourneyData | script.js:429-465 | the loop returns exactly the 100 records of `JourneyData`, id `i` at position `i - 1` |
| Journey.JourneyIds | script.js:431-455 | there are 100 milestones with ids 1..100, strictly increasing, so there are no gaps and no duplicates |
| Journey.KindRule | script.js:443-461 | an id divisible by 5 (multiples of 10 included) is a 200 XP chest with no icon and the reward label; any other id is a 50 XP lesson; no big chest occurs |
| Journey.LessonTopic | script.js:452-461 | a lesson takes icon and name from topic `(id - 1) % 8` and is labelled `<topic> <ceil(id / 8)>` |
| Journey.StatusRule | script.js:435-440 | id 1 is completed, id 2 is active, every other id is locked |
| Journey.ChestAt | script.js:443-449 | milestone `i` is a chest of either size exactly when five divides `i` |
| Journey.TwentyChests | script.js:433-449 | the path holds exactly twenty chests |
| Journey.MarginLeft | script.js:483-484 | a node's offset is one of 0, 50, 0, -50 |
| Journey.MarginPeriodic | script.js:483-484 | the offset repeats every four positions, four consecutive offsets sum to zero, and the offset is zero exactly at even positions |
| Journey.NodeFor | script.js:486-504 | a node is a chest node exactly for a chest milestone; it carries the id's decimal text as `data-step`, the status, the topic name as `data-topic`, and an offset from the pattern |
| Journey.RenderJourney | script.js:473-506 | one node per milestone |
| Journey.RenderedNodes | script.js:474-504 | one node per milestone, in order; a chest node exactly for a chest; `data-step` is the id; the status class is the milestone's; the offset is `pattern[index % 4]` |
| Journey.NodeMessage | script.js:245-258 | a locked or completed node always gets a prompt; an active node gets the assets prompt, the CIC prompt or nothing |
| Journey.NodeClick | script.js:225-231 | the handler runs exactly for lesson nodes, never for chest nodes |
| Journey.EmptyMessageIff | script.js:245-258 | the prompt is empty exactly for an active node whose step is neither "2" nor "3" |
| Journey.ClickOnNode | script.js:225-258 | a chest node never reaches the click handler; a lesson node's prompt is chosen by its status and its id, about its topic name |
| Journey.ChestClick | script.js:225 | no chest of the generated path reaches the handler |
| Journey.FirstNodeClick | script.js:248-249 | the first node says its topic is completed |
| Journey.SecondNodeClick | script.js:250-255 | the second, active node (step "2") gives the CIC prompt |
| Journey.LockedNodeClick | script.js:246-247 | every later lesson node gives the lock message for its topic, so the assets prompt and the empty prompt never occur on the generated path |
| Journey.LessonAt | script.js:443-460 | an id not divisible by five is a lesson named after topic `(id - 1) % 8`, with the demo status |
| Marketplace.Filter | script.js:373 | the filtered products all have the requested category and come from the input |
| Marketplace.FilterAppend | script.js:373 | filtering a concatenation filters each part, so order is kept |
| Marketplace.FilterSingle | script.js:373 | a single product is kept exactly when its category matches |
| Marketplace.FilterCounts | script.js:373 | every copy of a matching product is kept and no copy of another one |
| Marketplace.FilterExtremes | script.js:373 | when all products match nothing is dropped; when none does, nothing is kept |
| Marketplace.FilterIdempotent | script.js:373 | filtering twice by one category equals filtering once |
| Marketplace.FilterMiddle | script.js:373 | a run of matching products between non-matching ones is exactly what is kept |
| Marketplace.Visible | script.js:365-373 | the grid shows at most the catalog's products, all taken from it, and for a category other than 'all' only products of that category |
| Marketplace.VisibleRule | script.js:365-373 | 'all', given or defaulted, shows the catalog unchanged; any other value shows the products of exactly that category |
| Marketplace.LoansTab | script.js:274-373 | the loans tab shows products 4 and 5, in catalog order |
| Marketplace.UnknownCategory | script.js:371-373 | a category no product carries shows nothing |
| Benefits.InitialKeys | script.js:552-635 | the table's keys are the sixteen verification categories |
| Benefits.InitialLocks | script.js:552-635 | at load time only the student offers are unlocked |
| Benefits.UnlockAll | script.js:753-755 | every offer of the list is unlocked, with its name and discount kept and the list's length unchanged |
| Benefits.Unlocked | script.js:752-757 | confirming keeps the table's keys and the length of every category's list |
| Benefits.UnlockedFrame | script.js:752-757 | confirming opens every offer of the category and changes nothing else; an unknown category changes nothing |
| Benefits.UnlockedMonotone | script.js:752-757 | no confirmation locks an offer again |
| Benefits.UnlockedIdempotent | script.js:752-757 | confirming a category twice equals confirming it once |
| Benefits.UnlockedCommute | script.js:752-757 | the order of confirmations does not matter |
| Benefits.Tagged | script.js:646-648 | tagging keeps the list's length and marks every entry with the category |
| Benefits.Flatten | script.js:644-649 | every flattened entry is tagged with one of the listed categories |
| Benefits.FlattenUnlocked | script.js:644-649 | after a confirmation the rendered list is the previous one, in the same order, with exactly the confirmed category's entries unlocked |
| Benefits.ButtonFor | script.js:662-664 | an offer's claim button is disabled exactly when the offer is locked |
| Benefits.ConfirmedButtons | script.js:652-664 | after confirming a category, each of its rendered offers has the enabled "Nhận ưu đãi" button |
| Benefits.ModalHeading | script.js:676-697 | the heading is non-empty exactly for a known type, and then is its Vietnamese name |
| Benefits.BenefitsTable.constructor | script.js:552-635 | the table starts as the literal, keyed by the sixteen categories in literal order; the modal state it starts with is assumed from the markup (see Left out) |
| Benefits.BenefitsTable.OpenModal | script.js:672-701 | the heading, the open modal and the recorded type ("null" when the card has none) |
| Benefits.BenefitsTable.CloseModal | script.js:703-716 | the modal closes and nothing else changes |
| Benefits.BenefitsTable.UnlockCategory | script.js:752-757 | the in-place loop leaves the table equal to `Unlocked` of the old one |
| Benefits.BenefitsTable.Confirm | script.js:742-763 | the recorded type's offers are unlocked when the table holds it, otherwise no offer changes; the modal closes |
| Benefits.BenefitsTable.AllBenefits | script.js:644-649 | the nested loops build exactly `Flatten` of the keys and the table |
| Settings.Lookup | script.js:1016 | a key has a page exactly when the table holds it, with the table's title, which is never empty |
| Settings.Resolve | script.js:1016-1020 | whenever a page is shown its title is non-empty, and page content is only ever the requested key's |
| Settings.ResolveRule | script.js:1015-1020 | nothing happens exactly when the key is unknown and the override is missing or empty; the title is the truthy override, else the page title; the content is the page's own exactly for a known key, else the placeholder |
| Settings.EmptyOverrideIgnored | script.js:1017-1019 | an empty override behaves like no override |
| Settings.ProfileEditPage | script.js:1063 | the profile edit button opens "Chỉnh sửa hồ sơ" |
| Settings.SettingsScreen.constructor | script.js:818-819 | the two panes the handlers write to; their starting state is assumed from the markup (see Left out) |
| Settings.SettingsScreen.OpenSettingsDetail | script.js:1015-1027 | either no effect, or the resolved title and content shown with home hidden and detail shown |
| Settings.SettingsScreen.CloseSettingsDetail | script.js:1029-1032 | the detail pane is hidden and the home list shown |
| Settings.SettingsScreen.ItemClick | script.js:1043-1057 | a row with a non-empty key opens its page; a row without one changes nothing |
| Settings.SettingsScreen.ProfileEditClick | script.js:1060-1065 | the profile page is shown |
| Settings.SettingsScreen.PrimaryButtonClick | script.js:1080-1083 | a primary button closes the detail pane unless its inline display is already "none" |
| App.TabTitle | script.js:44-51 | the header is non-empty exactly for a known tab, and then shows that tab's title |
| App.ActiveFlags | script.js:34-41 | an entry is active exactly when its data-tab equals the tab id |
| App.ActiveCount | script.js:34-41 | as many entries are active as carry the tab id |
| App.ToggleActive | script.js:34-41 | the forEach toggle leaves exactly `ActiveFlags` |
| App.ActivateView | script.js:28-30 | clearing every view and activating the one with the tab's id marks exactly the views with that id |
| App.Replies | script.js:119-121 | three bot replies, inserted as HTML |
| App.App.constructor | script.js:3-9 | the initial `state` record: desktop mode, onboarding pending, profile tab, 0 XP, streak 1 |
| App.App.SwitchTab | script.js:24-55 | the current tab, the active view/sidebar/bottom entries and the header title follow the tab id |
| App.App.StartOnboarding | script.js:99-107 | three greeting lines are appended as HTML, then the input is enabled; only the chat and the input change |
| App.App.SendMessage | script.js:110-124 | blank input changes nothing; otherwise the trimmed text is echoed, the bot replies, the input is cleared and disabled, and XP is set to 50 rather than increased; nothing else changes |
| App.App.KeyPress | script.js:142-146 | Enter on an enabled input with non-blank text has exactly the effect of sending it (echo, replies, input cleared and locked, XP 50); any other key, a locked input or blank text changes nothing |
| App.App.FinishOnboarding | script.js:128-135 | the overlay closes, onboarding is complete, and the profile tab is shown: its view, sidebar link and bottom item are the active ones and the header reads "Tổng quan"; the chat, input and XP are untouched |
| App.App.NodeClick | script.js:224-271 | a lesson click opens the overlay with a fresh chat holding only its prompt as plain text, and enables the input; a chest click does nothing; tabs, XP and onboarding state are untouched |
| App.App.CloseChat | script.js:522-542 | the overlay closes and nothing else changes |

## Left out

- DOM construction: the `innerHTML` templates, class toggles beyond the `active` flags, scrolling, focus, opacity and inline styles other than the settings panes' `display`. The model keeps only the data the templates are built from.
- The charts (`initCharts`): a foreign library driven by floating-point sample data.
- Timers and `await`: `botSpeak`'s typing indicator and delays, overlay fade delays, toasts. Each handler is modelled by the state it reaches once its awaits have completed. `FinishOnboarding` is the pair of timer callbacks at the end of `sendMessage`.
- `alert`, `confirm`, the file-upload preview, the QR button, logout and page reload: browser dialogs and effects with no state the model keeps.
- The view-mode toggle and the toast container: presentational.
- The market tab buttons' own `active` classes. The tab click is modelled only through `Visible`.
- The status badge written on confirmation: its target element comes from the page markup, which is not part of this model.
- Benefits.Benefit: the logo URL of each offer is not kept. It is only written into an image source.
- Settings.Content: a page's form markup is represented by its key. The placeholder is kept as `PlaceholderHtml`.
- Marketplace.Visible: product-card rendering (badge, tags, apply button) is not modelled.
- Object-prototype keys (`constructor`, `__proto__` and the like) as a category, tab or settings key. There, JavaScript's property lookup finds inherited members, and the confirm handler would throw. The model treats such keys as unknown.
- Benefits.BenefitsTable.constructor: the page markup is not part of this model. The constructor assumes `#verify-modal` starts without the class `active` and without a `data-verify-type` attribute, and `#modal-verify-type` starts empty. Only the table itself comes from script.js:552-635.
- Settings.SettingsScreen.constructor: the page markup is not part of this model. The constructor assumes both panes start with no inline `display` and the detail title and content start empty. If the markup served the detail pane with an inline `display: none`, a primary-button click before the first open would do nothing (script.js:1080), while in the model it sets the home pane's display to "block".
- App.App.constructor: the page markup is not part of this model. The constructor takes the navigation entries and view ids as parameters, and assumes the markup marks the profile tab active. It also assumes the view ids are distinct, the chat overlay hidden and empty, and the input empty and disabled, as the markup serves them.
- App.App.SwitchTab: assumes only views carry the ids the tabs name, so `getElementById` finds a view.
- The null checks on optional elements (`if (pageTitle)`, `if (overlay && messages)` and so on): the model assumes every element is present.
- XP counter text (`xpCount.textContent`): a display of `xp`.
