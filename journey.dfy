/** The gamified learning path: a generator that expands eight topic
    templates into one hundred milestones, the data each rendered node
    carries (including its winding horizontal offset), and the chat prompt a
    click on a lesson node produces. */
module Journey {
  import opened Text

  datatype Topic = Topic(icon: string, name: string)

  /** The milestone `type` field: 'lesson', 'chest' or 'big-chest'. */
  datatype Kind = Lesson | Chest | BigChest

  /** The milestone `status` field, also the node's second CSS class. */
  datatype Status = Locked | Active | Completed

  datatype Milestone = Milestone(
    id: nat,
    kind: Kind,
    status: Status,
    xp: nat,
    icon: string,
    topicName: string,
    caption: string)

  const TotalMilestones: nat := 100

  const Topics: seq<Topic> := [
    Topic("fa-wallet", "Quản lý chi tiêu"),
    Topic("fa-piggy-bank", "Tiết kiệm thông minh"),
    Topic("fa-credit-card", "Thẻ tín dụng"),
    Topic("fa-chart-line", "Đầu tư cơ bản"),
    Topic("fa-shield-halved", "Bảo hiểm"),
    Topic("fa-house", "Mua nhà"),
    Topic("fa-coins", "Tiền mã hóa"),
    Topic("fa-sack-dollar", "Nghỉ hưu")
  ]

  /** Topic name and label shared by every chest. */
  const RewardLabel: string := "Phần thưởng"

  /** `type.includes('chest')`: true of both 'chest' and 'big-chest'. */
  predicate IsChest(k: Kind) {
    k == Chest || k == BigChest
  }

  /** Math.ceil(i / 8), the round a lesson belongs to, eight topics a round. */
  function Round(i: nat): (q: nat)
    ensures 8 * (q - 1) < i <= 8 * q
  {
    (i + 7) / 8
  }

  /** Demo progress: the first milestone is done, the second in progress. */
  function StatusAt(i: nat): Status {
    if i == 1 then Completed else if i == 2 then Active else Locked
  }

  /** Kind and XP reward of position `i`, tested in the generator's order:
      divisibility by five first, so the ten-test below it never decides. */
  function KindAndXp(i: nat): (r: (Kind, nat))
    ensures r.1 == (match r.0 case Lesson => 50 case Chest => 200 case BigChest => 500)
    ensures r.0 == Lesson <==> i % 5 != 0 && i % 10 != 0
  {
    if i % 5 == 0 then (Chest, 200)
    else if i % 10 == 0 then (BigChest, 500)
    else (Lesson, 50)
  }

  /** The ten-test is dead code: any multiple of ten is a multiple of five
      and is caught by the first test, so the result is a 200 XP chest or a
      50 XP lesson, never a 500 XP big chest. */
  lemma BigChestUnreachable(i: nat)
    ensures KindAndXp(i) == if i % 5 == 0 then (Chest, 200) else (Lesson, 50)
  {
    if i % 10 == 0 {
      var q := i / 10;
      assert i == 5 * (2 * q);
    }
  }

  /** The record the generator pushes for position `i` (1-based), given its
      kind, status and reward. */
  function Record(i: nat, kind: Kind, status: Status, xp: nat): (r: Milestone)
    requires i >= 1
    ensures r.id == i && r.kind == kind && r.status == status && r.xp == xp
  {
    var topic := Topics[(i - 1) % 8];
    Milestone(
      i, kind, status, xp,
      if IsChest(kind) then "" else topic.icon,
      if IsChest(kind) then RewardLabel else topic.name,
      if IsChest(kind) then RewardLabel
      else topic.name + " " + Digits(Round(i)))
  }

  /** A chest record has no icon and the reward label as topic and label; a
      lesson record takes icon and name from topic `(i - 1) % 8`. */
  lemma RecordShape(i: nat, kind: Kind, status: Status, xp: nat)
    requires i >= 1
    ensures Record(i, kind, status, xp).icon == "" <==> IsChest(kind)
    ensures !IsChest(kind) ==> Record(i, kind, status, xp).topicName == Topics[(i - 1) % 8].name
    ensures IsChest(kind) ==>
      Record(i, kind, status, xp).topicName == RewardLabel && Record(i, kind, status, xp).caption == RewardLabel
  {
  }

  function MilestoneAt(i: nat): (r: Milestone)
    requires i >= 1
    ensures r.id == i && r.status == StatusAt(i)
  {
    Record(i, KindAndXp(i).0, StatusAt(i), KindAndXp(i).1)
  }

  /** The first `n` records, in push order. */
  function Generated(n: nat): (ms: seq<Milestone>)
    ensures |ms| == n
  {
    if n == 0 then [] else Generated(n - 1) + [MilestoneAt(n)]
  }

  /** What every call of the generator returns. */
  function JourneyData(): (r: seq<Milestone>)
    ensures |r| == TotalMilestones
    ensures forall k :: 0 <= k < |r| ==> r[k].id == k + 1
  {
    seq(TotalMilestones, k requires 0 <= k < TotalMilestones => MilestoneAt(k + 1))
  }

  /** Position k of the first n records holds the record for id k + 1. */
  lemma {:induction false} GeneratedAt(n: nat, k: nat)
    requires k < n
    ensures |Generated(n)| == n && Generated(n)[k] == MilestoneAt(k + 1)
  {
    if k < n - 1 {
      GeneratedAt(n - 1, k);
    } else if n > 1 {
      GeneratedAt(n - 1, 0);
    }
  }

  /** One more pass of the generator's loop pushes the record for id `i`. */
  lemma GeneratedStep(i: nat, kind: Kind, status: Status, xp: nat)
    requires i >= 1 && status == StatusAt(i) && (kind, xp) == KindAndXp(i)
    ensures Generated(i) == Generated(i - 1) + [Record(i, kind, status, xp)]
  {
  }

  /** The generator: a counted loop with mutable `kind`, `status` and `xp`
      locals, pushing one record per iteration. */
  method GenerateJourneyData() returns (milestones: seq<Milestone>)
    ensures milestones == JourneyData()
  {
    milestones := [];
    var i := 1;
    while i <= TotalMilestones
      invariant 1 <= i <= TotalMilestones + 1
      invariant milestones == Generated(i - 1)
    {
      var kind := Lesson;
      var status := Locked;
      var xp := 50;

      if i == 1 {
        status := Completed;
      } else if i == 2 {
        status := Active;
      }

      if i % 5 == 0 {
        kind := Chest;
        xp := 200;
      } else if i % 10 == 0 {
        kind := BigChest;
        xp := 500;
      }

      GeneratedStep(i, kind, status, xp);
      milestones := milestones + [Record(i, kind, status, xp)];
      i := i + 1;
    }
    GeneratedIsJourney(i - 1);
  }

  /** Pushing records one by one builds exactly the path. */
  lemma GeneratedIsJourney(n: nat)
    requires n == TotalMilestones
    ensures Generated(n) == JourneyData()
  {
    var d := JourneyData();
    GeneratedAll(n);
    assert forall k :: 0 <= k < n ==> d[k] == MilestoneAt(k + 1);
  }

  /** The first `n` records are the records for ids 1..n, position by
      position. */
  lemma GeneratedAll(n: nat)
    ensures forall k :: 0 <= k < n ==> Generated(n)[k] == MilestoneAt(k + 1)
  {
    forall k | 0 <= k < n
      ensures Generated(n)[k] == MilestoneAt(k + 1)
    {
      GeneratedAt(n, k);
    }
  }

  /** One hundred milestones, numbered 1..100 in increasing order, so the
      ids have no gaps and no duplicates. */
  lemma JourneyIds()
    ensures |JourneyData()| == TotalMilestones
    ensures forall k :: 0 <= k < |JourneyData()| ==> JourneyData()[k].id == k + 1
    ensures forall j, k :: 0 <= j < k < |JourneyData()| ==> JourneyData()[j].id < JourneyData()[k].id
  {
  }

  /** Kind and reward of each milestone: every id divisible by five,
      multiples of ten included, is a 200 XP chest with no icon and the
      reward label; every other id is a 50 XP lesson. The 500 XP big chest
      is never produced. */
  lemma KindRule(k: nat)
    requires k < TotalMilestones
    ensures var m := JourneyData()[k];
      && m.kind != BigChest
      && (m.id % 5 == 0 <==> m.kind == Chest)
      && (m.kind == Chest ==> m.xp == 200 && m.icon == "" && m.topicName == RewardLabel && m.caption == RewardLabel)
      && (m.kind == Lesson ==> m.xp == 50)
      && (m.id % 10 == 0 ==> m.kind == Chest && m.xp == 200)
  {
  }

  /** A lesson takes icon and name from the topic table, cycling every eight
      ids, and is labelled with the topic name and the round number
      ceil(id / 8). */
  lemma LessonTopic(k: nat)
    requires k < TotalMilestones
    requires JourneyData()[k].kind == Lesson
    ensures var m := JourneyData()[k];
      && m.icon == Topics[k % 8].icon
      && m.topicName == Topics[k % 8].name
      && m.caption == Topics[k % 8].name + " " + Digits(k / 8 + 1)
  {
  }

  /** Only the first milestone is completed and only the second is active. */
  lemma StatusRule(k: nat)
    requires k < TotalMilestones
    ensures JourneyData()[k].status == (if k == 0 then Completed else if k == 1 then Active else Locked)
  {
  }

  /** Number of chests (of either size) in a list of milestones. */
  function CountChests(ms: seq<Milestone>): nat {
    if ms == [] then 0
    else CountChests(ms[..|ms| - 1]) + (if IsChest(ms[|ms| - 1].kind) then 1 else 0)
  }

  /** Milestone `i` is a chest exactly when five divides `i`. */
  lemma ChestAt(i: nat)
    requires i >= 1
    ensures IsChest(MilestoneAt(i).kind) <==> i % 5 == 0
  {
    BigChestUnreachable(i);
  }

  lemma FifthStep(n: nat)
    requires n > 0
    ensures n / 5 == (n - 1) / 5 + (if n % 5 == 0 then 1 else 0)
  {
  }

  /** A list whose chests sit exactly at the positions with ids divisible by
      five holds one chest per multiple of five. */
  lemma {:induction false} ChestsEveryFifth(ms: seq<Milestone>)
    requires forall k :: 0 <= k < |ms| ==> (IsChest(ms[k].kind) <==> (k + 1) % 5 == 0)
    ensures CountChests(ms) == |ms| / 5
  {
    if ms != [] {
      var n := |ms|;
      var init := ms[..n - 1];
      assert forall k :: 0 <= k < |init| ==> init[k] == ms[k];
      ChestsEveryFifth(init);
      FifthStep(n);
    }
  }

  /** The path holds twenty chests and eighty lessons. */
  lemma TwentyChests()
    ensures CountChests(JourneyData()) == 20
  {
    var ms := JourneyData();
    forall k | 0 <= k < |ms|
      ensures IsChest(ms[k].kind) <==> (k + 1) % 5 == 0
    {
      ChestAt(k + 1);
    }
    ChestsEveryFifth(ms);
  }

  // ---------------------------------------------------------------------
  // Rendering: the data each node of the path carries.

  const OffsetPattern: seq<int> := [0, 50, 0, -50]

  /** Horizontal offset in pixels of the node at position `index` (not its
      id), from the repeating pattern 0, 50, 0, -50. */
  function MarginLeft(index: nat): (px: int)
    ensures px in OffsetPattern
  {
    OffsetPattern[index % 4]
  }

  /** The offset repeats every four positions and every four consecutive
      nodes balance out around the centre line. */
  lemma MarginPeriodic(index: nat)
    ensures MarginLeft(index + 4) == MarginLeft(index)
    ensures MarginLeft(index) + MarginLeft(index + 1) + MarginLeft(index + 2) + MarginLeft(index + 3) == 0
    ensures MarginLeft(index) == 0 <==> index % 2 == 0
  {
    var r := index % 4;
    assert index == 4 * (index / 4) + r;
    assert (index + 1) % 4 == (r + 1) % 4 && (index + 2) % 4 == (r + 2) % 4 && (index + 3) % 4 == (r + 3) % 4;
    assert (index + 4) % 4 == r;
    assert index % 2 == r % 2;
  }

  /** A rendered node: a chest (class `journey-chest`) or a lesson (class
      `journey-node`), with its data-step, data-topic, label and offset. */
  datatype NodeView =
    | ChestView(status: Status, step: string, topic: string, caption: string, marginLeft: int, imageWidth: nat)
    | LessonView(status: Status, step: string, topic: string, caption: string, marginLeft: int, badge: string, icon: string)

  function NodeFor(m: Milestone, index: nat): (r: NodeView)
    ensures r.ChestView? <==> IsChest(m.kind)
    ensures r.step == Digits(m.id) && r.status == m.status && r.topic == m.topicName
    ensures r.marginLeft in OffsetPattern
  {
    if m.kind == Chest || m.kind == BigChest then
      ChestView(m.status, Digits(m.id), m.topicName, m.caption, MarginLeft(index),
                if m.kind == BigChest then 80 else 60)
    else
      LessonView(m.status, Digits(m.id), m.topicName, m.caption, MarginLeft(index),
                 "+" + Digits(m.xp) + " XP", m.icon)
  }

  /** The nodes the journey container receives, in order. */
  function RenderJourney(ms: seq<Milestone>): (r: seq<NodeView>)
    ensures |r| == |ms|
  {
    seq(|ms|, k requires 0 <= k < |ms| => NodeFor(ms[k], k))
  }

  /** One node per milestone, in order: a chest node exactly for a chest,
      carrying the milestone's id as its step and its status, and offset by
      position in the four-step pattern. */
  lemma RenderedNodes(ms: seq<Milestone>)
    ensures |RenderJourney(ms)| == |ms|
    ensures forall k :: 0 <= k < |ms| ==> (RenderJourney(ms)[k].ChestView? <==> IsChest(ms[k].kind))
    ensures forall k :: 0 <= k < |ms| ==> RenderJourney(ms)[k].marginLeft == OffsetPattern[k % 4]
    ensures forall k :: 0 <= k < |ms| ==>
      RenderJourney(ms)[k].step == Digits(ms[k].id) && RenderJourney(ms)[k].status == ms[k].status
  {
  }

  // ---------------------------------------------------------------------
  // Clicking a lesson node.

  const AssetsPrompt: string :=
    "💰 Hãy thêm tài sản để nhận <b>200 XP</b>! Bạn có Nhà, Xe hay Sổ tiết kiệm nào không?"
  const CicPrompt: string :=
    "🚀 <b>Điểm CIC</b> của bạn đang được theo dõi. Bạn có muốn xem báo cáo chi tiết không?"

  function LockedMessage(name: string): string {
    "🔒 <b>" + name + "</b> đang bị khóa! Hãy hoàn thành các bước trước để mở khóa."
  }

  function CompletedMessage(name: string): string {
    "✅ Bạn đã hoàn thành <b>" + name + "</b>! Bạn muốn cập nhật lại thông tin không?"
  }

  /** The bot's line for a clicked node: by status first, then, for an
      active node, by its data-step. */
  function NodeMessage(status: Status, step: string, name: string): (r: string)
    ensures status == Locked || status == Completed ==> r != ""
    ensures status == Active ==> r in {AssetsPrompt, CicPrompt, ""}
  {
    if status == Locked then LockedMessage(name)
    else if status == Completed then CompletedMessage(name)
    else if step == "3" then AssetsPrompt
    else if step == "2" then CicPrompt
    else ""
  }

  /** The message is empty exactly for an active node whose step is neither
      "2" nor "3". */
  lemma EmptyMessageIff(status: Status, step: string, name: string)
    ensures NodeMessage(status, step, name) == "" <==> status == Active && step != "2" && step != "3"
  {
  }

  /** The click handler: only elements of class `journey-node` reach it, so
      a chest yields None; the label is data-topic, or the node's label text
      when data-topic is empty. */
  function NodeClick(v: NodeView): (r: Option<string>)
    ensures r.None? <==> v.ChestView?
  {
    if v.ChestView? then None
    else Some(NodeMessage(v.status, v.step, if v.topic != "" then v.topic else v.caption))
  }

  /** A rendered chest never reaches the handler; a rendered lesson with a
      topic name speaks about that topic, chosen by its status and id. */
  lemma ClickOnNode(m: Milestone, index: nat)
    ensures IsChest(m.kind) ==> NodeClick(NodeFor(m, index)) == None
    ensures !IsChest(m.kind) && m.topicName != "" ==>
      NodeClick(NodeFor(m, index)) == Some(NodeMessage(m.status, Digits(m.id), m.topicName))
  {
  }

  // Clicking the nodes of the rendered path, position by position.

  /** The chests (every fifth position) never reach the handler. */
  lemma ChestClick(k: nat)
    requires k < TotalMilestones && (k + 1) % 5 == 0
    ensures NodeClick(RenderJourney(JourneyData())[k]) == None
  {
    var m := MilestoneAt(k + 1);
    assert RenderJourney(JourneyData())[k] == NodeFor(m, k);
    ClickOnNode(m, k);
  }

  /** The first node reports that its topic is done. */
  lemma FirstNodeClick()
    ensures NodeClick(RenderJourney(JourneyData())[0]) == Some(CompletedMessage(Topics[0].name))
  {
    var m := MilestoneAt(1);
    assert RenderJourney(JourneyData())[0] == NodeFor(m, 0);
    ClickOnNode(m, 0);
  }

  /** The second node, the active one, shows the CIC prompt. */
  lemma SecondNodeClick()
    ensures NodeClick(RenderJourney(JourneyData())[1]) == Some(CicPrompt)
  {
    var m := MilestoneAt(2);
    assert RenderJourney(JourneyData())[1] == NodeFor(m, 1);
    ClickOnNode(m, 1);
    assert Digits(m.id) == Digits(2) == "2";
  }

  /** Every later lesson is locked and says so about its topic; so the
      assets prompt (step "3") and the empty message never appear on the
      generated path. */
  lemma LockedNodeClick(k: nat)
    requires 2 <= k < TotalMilestones && (k + 1) % 5 != 0
    ensures NodeClick(RenderJourney(JourneyData())[k]) == Some(LockedMessage(Topics[k % 8].name))
  {
    assert RenderJourney(JourneyData())[k] == NodeFor(MilestoneAt(k + 1), k);
    LockedLesson(k);
  }

  /** A milestone whose id is not a multiple of five is a lesson named after
      its topic. */
  lemma LessonAt(i: nat)
    requires i >= 1 && i % 5 != 0
    ensures MilestoneAt(i).kind == Lesson
    ensures MilestoneAt(i).topicName == Topics[(i - 1) % 8].name
    ensures MilestoneAt(i).status == StatusAt(i)
  {
    BigChestUnreachable(i);
  }

  lemma LockedLesson(k: nat)
    requires 2 <= k < TotalMilestones && (k + 1) % 5 != 0
    ensures NodeClick(NodeFor(MilestoneAt(k + 1), k)) == Some(LockedMessage(Topics[k % 8].name))
  {
    var m := MilestoneAt(k + 1);
    LessonAt(k + 1);
    var name := Topics[k % 8].name;
    assert name != "";
    ClickOnNode(m, k);
  }
}
