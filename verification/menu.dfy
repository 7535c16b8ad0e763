/**
 * The touch menu of src/fw/main.cpp: the screen show_menu draws, the bands
 * handle_touch_menu cuts the y axis into, and what each selection does.
 */
module Menu {
  import opened Hal
  import opened Gestures
  import Rituals

  datatype MenuItem = ViewStats | ClearData | TestNfc | NodeInfo | Exit

  /** handle_touch_menu's choice: four half-open 20-pixel bands from y = 50, the rest exits. */
  function Classify(y: int): MenuItem {
    if 50 <= y < 70 then ViewStats
    else if 70 <= y < 90 then ClearData
    else if 90 <= y < 110 then TestNfc
    else if 110 <= y < 130 then NodeInfo
    else Exit
  }

  /** The top of the band of an item, and its place on the menu. */
  function BandTop(item: MenuItem): (top: nat)
    requires item != Exit
    ensures top == 30 + 20 * Rank(item)
  {
    match item
    case ViewStats => 50
    case ClearData => 70
    case TestNfc => 90
    case NodeInfo => 110
  }

  function Rank(item: MenuItem): nat {
    match item
    case ViewStats => 1
    case ClearData => 2
    case TestNfc => 3
    case NodeInfo => 4
    case Exit => 5
  }

  /** Each item owns exactly the 20 rows starting at its band top; the four bands are contiguous. */
  lemma BandsPartition(y: int, item: MenuItem)
    requires item != Exit
    ensures Classify(y) == item <==> BandTop(item) <= y < BandTop(item) + 20
    ensures Classify(y) == Exit <==> y < 50 || y >= 130
  {
  }

  /** show_menu */
  function MenuScreen(): seq<Effect> {
    [DisplayClear,
     DrawText(10, 10, "MELD Node Menu", 2),
     DrawText(10, 50, "1. View Stats", 1),
     DrawText(10, 70, "2. Clear Data", 1),
     DrawText(10, 90, "3. Test NFC", 1),
     DrawText(10, 110, "4. Node Info", 1),
     DrawText(10, 250, "Touch to exit", 1),
     DisplayUpdate(true)]
  }

  /**
   * The bands line up with the drawn menu: each numbered line is drawn at the
   * top of its own band, and the title and the exit hint lie outside every band.
   */
  lemma MenuLinesInTheirBands()
    ensures var m := MenuScreen();
            && Classify(m[2].y) == ViewStats && m[2].y == BandTop(ViewStats)
            && Classify(m[3].y) == ClearData && m[3].y == BandTop(ClearData)
            && Classify(m[4].y) == TestNfc && m[4].y == BandTop(TestNfc)
            && Classify(m[5].y) == NodeInfo && m[5].y == BandTop(NodeInfo)
            && Classify(m[1].y) == Exit && Classify(m[6].y) == Exit
  {
  }

  /** The Node Information screen. */
  function NodeInfoScreen(cfg: Rituals.RitualConfig): seq<Effect> {
    [DisplayClear,
     DrawText(10, 10, "Node Information", 2),
     DrawText(10, 50, "ID:", 1),
     DrawText(40, 50, cfg.nodeId, 1),
     DrawText(10, 70, "Label:", 1),
     DrawText(60, 70, cfg.labelText, 1),
     DrawText(10, 250, "Touch to continue", 1),
     DisplayUpdate(true)]
  }

  /** handle_touch_menu: what a touch-down at height y does to a device in state w. */
  function Selection(cfg: Rituals.RitualConfig, y: int, w: World): Run {
    match Classify(y)
    case ViewStats =>
      Run(Rituals.Framed(cfg.labelText, "Feature coming soon", [], 1000), w.(clock := w.clock + 1000))
    case ClearData =>
      Run(Rituals.Framed(cfg.labelText, "Data cleared", [], 1000), w.(clock := w.clock + 1000))
    case TestNfc =>
      Run(Rituals.Framed(cfg.labelText, "Tap NFC tag to test", [], 3000), w.(clock := w.clock + 3000))
    case NodeInfo =>
      var tap := AwaitTap(w.touches);
      Run(NodeInfoScreen(cfg) + Ticks(tap.sleeps) + Rituals.ReadyScreen(cfg.labelText),
          w.(clock := w.clock + 10 * tap.sleeps, touches := tap.rest))
    case Exit =>
      Run(Rituals.ReadyScreen(cfg.labelText), w)
  }

  /**
   * Every selection ends on the ready screen and never writes storage
   * ("Clear Data" included); only Node Info consumes touch input, up to and
   * including the touch-down that dismisses it.
   */
  lemma SelectionEndsReady(cfg: Rituals.RitualConfig, y: int, w: World)
    ensures var r := Selection(cfg, y, w);
            var e := r.effects;
            && |e| >= 6
            && e[|e| - 6..] == Rituals.ReadyScreen(cfg.labelText)
            && (forall i :: 0 <= i < |e| ==> !e[i].Save? && !e[i].Load?)
            && r.after.store == w.store
            && r.after.clock >= w.clock
            && (Classify(y) != NodeInfo ==> r.after.touches == w.touches)
            && (Classify(y) == NodeInfo ==> r.after.touches == AwaitTap(w.touches).rest)
  {
    var title := cfg.labelText;
    match Classify(y)
    case ViewStats =>
      NoticeEndsReady(title, "Feature coming soon", 1000);
    case ClearData =>
      NoticeEndsReady(title, "Data cleared", 1000);
    case TestNfc =>
      NoticeEndsReady(title, "Tap NFC tag to test", 3000);
    case NodeInfo =>
      NodeInfoEndsReady(cfg, AwaitTap(w.touches).sleeps);
    case Exit =>
  }

  /** A notice shown for its dwell before the ready screen returns touches no storage. */
  lemma NoticeEndsReady(title: string, message: string, dwell: nat)
    ensures var e := Rituals.Framed(title, message, [], dwell);
            && |e| >= 6
            && e[|e| - 6..] == Rituals.ReadyScreen(title)
            && (forall i :: 0 <= i < |e| ==> !e[i].Save? && !e[i].Load?)
  {
    Rituals.FramedShape(title, message, [], dwell);
  }

  /** The Node Information screen, the polls before its dismissal and the ready screen touch no storage. */
  lemma NodeInfoEndsReady(cfg: Rituals.RitualConfig, sleeps: nat)
    ensures var e := NodeInfoScreen(cfg) + Ticks(sleeps) + Rituals.ReadyScreen(cfg.labelText);
            && |e| >= 6
            && e[|e| - 6..] == Rituals.ReadyScreen(cfg.labelText)
            && (forall i :: 0 <= i < |e| ==> !e[i].Save? && !e[i].Load?)
  {
    var info, ticks, ready := NodeInfoScreen(cfg), Ticks(sleeps), Rituals.ReadyScreen(cfg.labelText);
    var e := info + ticks + ready;
    assert e[|e| - 6..] == ready;
    forall i | 0 <= i < |e| ensures !e[i].Save? && !e[i].Load? {
      if i < |info| {
        assert e[i] == info[i];
      } else if i < |info| + |ticks| {
        assert e[i] == ticks[i - |info|];
      } else {
        assert e[i] == ready[i - |info| - |ticks|];
      }
    }
  }

  /** The dwell of each timed selection: one second for the stubs, three for the NFC test. */
  lemma SelectionDwell(cfg: Rituals.RitualConfig, y: int, w: World)
    ensures Classify(y) in {ViewStats, ClearData} ==> Selection(cfg, y, w).after.clock == w.clock + 1000
    ensures Classify(y) == TestNfc ==> Selection(cfg, y, w).after.clock == w.clock + 3000
    ensures Classify(y) == Exit ==> Selection(cfg, y, w) == Run(Rituals.ReadyScreen(cfg.labelText), w)
  {
  }
}
