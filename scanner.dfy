/**
 * The scan-mode state machine of `MainActivity.kt`: the four scan modes, the screen state the
 * handlers assign, the gate on scans, and the two-step flow that stores a bag in a box. A scan
 * runs as one atomic step; Notion is the `NotionRepository` workspace, and how each request
 * it sends is answered is an input.
 */
module Scanner {
  import opened Wrappers
  import opened NotionStore
  import opened TagUid

  datatype ScanMode = HukuroScan | HakoScan | ShimauStep1Hako | ShimauStep2Hukuro

  /** The screen state the handlers read and assign. */
  datatype UiState = UiState(
    currentMode: ScanMode,
    scannedId: string,
    resultTitle: string,
    statusMessage: string,
    isScanningActive: bool,
    isFlashing: bool,
    isLocked: bool,
    selectedHakoPageId: Option<PageId>,
    selectedHakoUid: Option<string>)

  /** The two databases the app works on, from its configuration. */
  datatype Config = Config(hukuroDatabase: string, hakoDatabase: string)

  /** How Notion answers each request a scan may send, in the order they are sent. */
  datatype Net = Net(query: Reply, create: Reply, patch: Reply, refetch: Reply)

  const IdleStatus := "ボタンを押してスキャン開始"
  const ProcessingStatus := "処理中..."
  const ErrorTitle := "エラー"
  const UnknownError := "不明なエラー"
  const DoneTitle := "完了"
  const LinkedStatus := "袋を箱に紐付けました！"
  const BagOpenedStatus := "袋を開きました"
  const BoxOpenedStatus := "箱を開きました"

  const BagKey := "袋ID"
  const BagName := "商品名"
  const BagDefaultName := "新規登録パーツ"
  const BoxKey := "箱ID"
  const BoxName := "箱名"
  const BoxDefaultName := "新しい箱"

  /** The state the activity starts in. */
  const Initial := UiState(HukuroScan, "-", "", IdleStatus, false, false, false, None, None)

  /** The status line shown when a mode is chosen. */
  function StatusFor(mode: ScanMode): string {
    match mode
    case HukuroScan => "袋をスキャンしてください"
    case HakoScan => "箱をスキャンしてください"
    case ShimauStep1Hako => "【1/2】箱をスキャンしてください"
    case ShimauStep2Hukuro => "【2/2】袋をスキャンしてください"
  }

  /** The status line of step 2, naming the box chosen in step 1. */
  function SelectedStatus(boxName: string): string {
    "箱「" + boxName + "」を選択中。\n次に袋をスキャンしてください。"
  }

  /** The message shown for a failed request: the exception's message, or a fixed text when it has none. */
  function ErrorText(message: Option<string>): string {
    message.GetOr(UnknownError)
  }

  /** The page holds a non-empty rich text in `column`. */
  predicate HasName(page: Page, column: string) {
    column in page.properties && page.properties[column].RichTextProperty? && page.properties[column].richText != []
  }

  /** The name of a page: the first rich-text segment of `column`, or `fallback` when there is none. */
  function DisplayName(page: Page, column: string, fallback: string): (r: string)
    ensures HasName(page, column) ==> r == page.properties[column].richText[0]
    ensures !HasName(page, column) ==> r == fallback
  {
    if HasName(page, column) then page.properties[column].richText[0] else fallback
  }

  /** Step 2 always has a box to store the bag in, and the box's page id and uid are chosen together. */
  predicate Selected(s: UiState) {
    && (s.currentMode == ShimauStep2Hukuro ==> s.selectedHakoPageId.Some?)
    && (s.selectedHakoPageId.Some? <==> s.selectedHakoUid.Some?)
  }

  /** The scanned id, the lock and the flash are as they were: the handlers leave them to `onIdDetected`. */
  predicate Untouched(s: UiState, t: UiState) {
    t.scannedId == s.scannedId && t.isLocked == s.isLocked && t.isFlashing == s.isFlashing
  }

  /** The box selection is as it was. */
  predicate SameSelection(s: UiState, t: UiState) {
    t.selectedHakoPageId == s.selectedHakoPageId && t.selectedHakoUid == s.selectedHakoUid
  }

  /** A mode button: the chosen mode, a cleared result, scanning on, and the mode's prompt. */
  function ModeChanged(s: UiState, mode: ScanMode): (r: UiState)
    ensures r.currentMode == mode && r.scannedId == "-" && r.resultTitle == ""
    ensures r.isScanningActive && r.statusMessage == StatusFor(mode)
    ensures SameSelection(s, r) && r.isLocked == s.isLocked
    ensures Selected(s) && (mode != ShimauStep2Hukuro || s.selectedHakoPageId.Some?) ==> Selected(r)
  {
    s.(currentMode := mode, scannedId := "-", resultTitle := "", isScanningActive := true, statusMessage := StatusFor(mode))
  }

  /** The cancel button: scanning off and the idle prompt. */
  function Cancelled(s: UiState): (r: UiState)
    ensures !r.isScanningActive && r.statusMessage == IdleStatus
    ensures r.currentMode == s.currentMode && SameSelection(s, r)
  {
    s.(isScanningActive := false, statusMessage := IdleStatus)
  }

  /** `updateUI`: the result title and the status line. */
  function Shown(s: UiState, title: string, status: string): UiState {
    s.(resultTitle := title, statusMessage := status)
  }

  /**
   * Scanning a bag or a box: find or create its page and show its name, or the error; the mode
   * stays and scanning stops either way.
   */
  function OpenPage(s: UiState, w: Workspace, database: string, key: string, nameColumn: string,
                    defaultName: string, openedStatus: string, id: string, net: Net): (r: (UiState, Workspace))
    ensures var (found, w') := FindOrCreate(w, database, key, id, nameColumn, defaultName, net.query, net.create);
      && r.1 == w'
      && r.0 == s.(resultTitle := r.0.resultTitle, statusMessage := r.0.statusMessage, isScanningActive := false)
      && (found.Success? ==> r.0.resultTitle == DisplayName(found.value, nameColumn, id) && r.0.statusMessage == openedStatus)
      && (found.Failure? ==> r.0.resultTitle == ErrorTitle && r.0.statusMessage == ErrorText(found.message))
  {
    var (found, w') := FindOrCreate(w, database, key, id, nameColumn, defaultName, net.query, net.create);
    var shown :=
      if found.Success? then Shown(s, DisplayName(found.value, nameColumn, id), openedStatus)
      else Shown(s, ErrorTitle, ErrorText(found.message));
    (shown.(isScanningActive := false), w')
  }

  /** `processHukuro`. */
  function Hukuro(cfg: Config, s: UiState, w: Workspace, id: string, net: Net): (UiState, Workspace) {
    OpenPage(s, w, cfg.hukuroDatabase, BagKey, BagName, BagDefaultName, BagOpenedStatus, id, net)
  }

  /** `processHako`. */
  function Hako(cfg: Config, s: UiState, w: Workspace, id: string, net: Net): (UiState, Workspace) {
    OpenPage(s, w, cfg.hakoDatabase, BoxKey, BoxName, BoxDefaultName, BoxOpenedStatus, id, net)
  }

  /**
   * `processShimauStep1`: the scanned box is found or created and chosen, and step 2 follows
   * with scanning still on; on failure the mode stays and scanning stops.
   */
  function Step1(cfg: Config, s: UiState, w: Workspace, id: string, net: Net): (r: (UiState, Workspace))
    ensures var (found, w') := FindOrCreate(w, cfg.hakoDatabase, BoxKey, id, BoxName, BoxDefaultName, net.query, net.create);
      && r.1 == w'
      && (found.Success? ==>
            && r.0.currentMode == ShimauStep2Hukuro && r.0.isScanningActive == s.isScanningActive
            && r.0.selectedHakoPageId == Some(found.value.id) && r.0.selectedHakoUid == Some(id)
            && r.0.resultTitle == s.resultTitle
            && r.0.statusMessage == SelectedStatus(DisplayName(found.value, BoxName, id)))
      && (found.Failure? ==>
            && r.0.currentMode == s.currentMode && !r.0.isScanningActive && SameSelection(s, r.0)
            && r.0.resultTitle == ErrorTitle && r.0.statusMessage == ErrorText(found.message))
    ensures Untouched(s, r.0)
    ensures Selected(s) ==> Selected(r.0)
  {
    var (found, w') := FindOrCreate(w, cfg.hakoDatabase, BoxKey, id, BoxName, BoxDefaultName, net.query, net.create);
    match found
    case Success(hakoPage) =>
      var chosen := s.(selectedHakoPageId := Some(hakoPage.id), selectedHakoUid := Some(id));
      (chosen.(currentMode := ShimauStep2Hukuro, statusMessage := SelectedStatus(DisplayName(hakoPage, BoxName, id))), w')
    case Failure(m) =>
      (Shown(s, ErrorTitle, ErrorText(m)).(isScanningActive := false), w')
  }

  /** A failed step 2: the error shown, scanning off, the mode and the box kept for a retry. */
  function Step2Failed(s: UiState, message: Option<string>): UiState {
    Shown(s, ErrorTitle, ErrorText(message)).(isScanningActive := false)
  }

  /**
   * The rest of step 2 once the bag's page `bagId` is known: its box relation set to the chosen
   * box `hakoId`, then the box page fetched again by the chosen uid.
   */
  function Linked(cfg: Config, s: UiState, w: Workspace, bagId: PageId, hakoId: PageId, net: Net): (r: (UiState, Workspace))
    ensures !r.0.isScanningActive && SameSelection(s, r.0) && Untouched(s, r.0)
    ensures var (patched, w') := UpdateLocation(w, bagId, hakoId, net.patch);
      var done := patched.Success? && s.selectedHakoUid.Some? && net.refetch.Answered? && cfg.hakoDatabase in w.databases;
      && r.1 == w'
      && (done ==> r.0.currentMode == HukuroScan && r.0.resultTitle == DoneTitle && r.0.statusMessage == LinkedStatus)
      && (!done ==> r.0.currentMode == s.currentMode && r.0.resultTitle == ErrorTitle)
    ensures Consistent(w) ==> Consistent(r.1)
  {
    var (patched, w') := UpdateLocation(w, bagId, hakoId, net.patch);
    if patched.Failure? then (Step2Failed(s, patched.message), w')
    else if s.selectedHakoUid.None? then (Step2Failed(s, None), w')
    else match GetPageResult(w', cfg.hakoDatabase, BoxKey, s.selectedHakoUid.value, net.refetch)
      case Failure(m) => (Step2Failed(s, m), w')
      case Success(_) =>
        (Shown(s, DoneTitle, LinkedStatus).(currentMode := HukuroScan, isScanningActive := false), w')
  }

  /**
   * `processShimauStep2`: with no box chosen nothing happens. Otherwise the scanned bag is found
   * or created, its box relation set to the chosen box, and the box page fetched again; when
   * all of that succeeds the title says done and the mode goes back to bag scanning. Scanning
   * stops and the chosen box is kept in every case.
   */
  function Step2(cfg: Config, s: UiState, w: Workspace, id: string, net: Net): (r: (UiState, Workspace))
    ensures s.selectedHakoPageId.None? ==> r == (s, w)
    ensures s.selectedHakoPageId.Some? ==>
      && !r.0.isScanningActive && SameSelection(s, r.0) && Untouched(s, r.0)
      && ((r.0.currentMode == HukuroScan && r.0.resultTitle == DoneTitle)
          || (r.0.currentMode == s.currentMode && r.0.resultTitle == ErrorTitle))
      && (net.query.Fails? || net.patch.Fails? || net.refetch.Fails? ==>
            r.0.currentMode == s.currentMode && r.0.resultTitle == ErrorTitle)
    ensures Selected(s) ==> Selected(r.0)
  {
    match s.selectedHakoPageId
    case None => (s, w)
    case Some(hakoId) =>
      var (found, w') := FindOrCreate(w, cfg.hukuroDatabase, BagKey, id, BagName, BagDefaultName, net.query, net.create);
      if found.Failure? then (Step2Failed(s, found.message), w')
      else Linked(cfg, s, w', found.value.id, hakoId, net)
  }

  /** The handler for the current mode. */
  function Handle(cfg: Config, s: UiState, w: Workspace, id: string, net: Net): (r: (UiState, Workspace))
    ensures Untouched(s, r.0)
    ensures Selected(s) ==> Selected(r.0)
    ensures s.currentMode != ShimauStep1Hako ==> SameSelection(s, r.0)
  {
    match s.currentMode
    case HukuroScan => Hukuro(cfg, s, w, id, net)
    case HakoScan => Hako(cfg, s, w, id, net)
    case ShimauStep1Hako => Step1(cfg, s, w, id, net)
    case ShimauStep2Hukuro => Step2(cfg, s, w, id, net)
  }

  /**
   * `onIdDetected`: ignored while scanning is off or a scan is in progress; otherwise the id is
   * shown, the handler for the mode runs, and the lock is released whatever it did.
   */
  function Scan(cfg: Config, s: UiState, w: Workspace, id: string, net: Net): (r: (UiState, Workspace))
    ensures !s.isScanningActive || s.isLocked ==> r == (s, w)
    ensures s.isScanningActive && !s.isLocked ==> r.0.scannedId == id && !r.0.isLocked && !r.0.isFlashing
    ensures Selected(s) ==> Selected(r.0)
  {
    if !s.isScanningActive || s.isLocked then (s, w)
    else
      var started := s.(isLocked := true, isFlashing := false, scannedId := id, statusMessage := ProcessingStatus);
      var (handled, w') := Handle(cfg, started, w, id, net);
      (handled.(isLocked := false), w')
  }

  /** Step 2 keeps the workspace consistent: the bag it creates gets a fresh id, and the patch replaces one page. */
  lemma Step2Consistent(cfg: Config, s: UiState, w: Workspace, id: string, net: Net)
    requires Consistent(w)
    ensures Consistent(Step2(cfg, s, w, id, net).1)
  {
    if s.selectedHakoPageId.Some? {
      FindOrCreateConsistent(w, cfg.hukuroDatabase, BagKey, id, BagName, BagDefaultName, net.query, net.create);
    }
  }

  /** Whatever the mode, a scan keeps the workspace consistent. */
  lemma HandleConsistent(cfg: Config, s: UiState, w: Workspace, id: string, net: Net)
    requires Consistent(w)
    ensures Consistent(Handle(cfg, s, w, id, net).1)
  {
    match s.currentMode
    case HukuroScan => FindOrCreateConsistent(w, cfg.hukuroDatabase, BagKey, id, BagName, BagDefaultName, net.query, net.create);
    case HakoScan => FindOrCreateConsistent(w, cfg.hakoDatabase, BoxKey, id, BoxName, BoxDefaultName, net.query, net.create);
    case ShimauStep1Hako => FindOrCreateConsistent(w, cfg.hakoDatabase, BoxKey, id, BoxName, BoxDefaultName, net.query, net.create);
    case ShimauStep2Hukuro => Step2Consistent(cfg, s, w, id, net);
  }

  /** What the user can do: press a mode button, press cancel, or present a tag or code with this id. */
  datatype Event = ModeButton(mode: ScanMode) | CancelButton | Detected(id: string, net: Net)

  /** The buttons offer bag scanning, box scanning and step 1 of storing; step 2 is only reached by a scan. */
  predicate FromButtons(events: seq<Event>) {
    forall k :: 0 <= k < |events| && events[k].ModeButton? ==> events[k].mode != ShimauStep2Hukuro
  }

  function Step(cfg: Config, s: UiState, w: Workspace, e: Event): (UiState, Workspace) {
    match e
    case ModeButton(mode) => (ModeChanged(s, mode), w)
    case CancelButton => (Cancelled(s), w)
    case Detected(id, net) => Scan(cfg, s, w, id, net)
  }

  /** The state after a sequence of events. */
  function Run(cfg: Config, s: UiState, w: Workspace, events: seq<Event>): (UiState, Workspace)
    decreases |events|
  {
    if events == [] then (s, w)
    else
      var (s', w') := Run(cfg, s, w, events[..|events| - 1]);
      Step(cfg, s', w', events[|events| - 1])
  }

  /**
   * Whatever the user does with the buttons and whatever Notion answers, step 2 always has a box
   * chosen: the early return of `processShimauStep2` is never taken, and the workspace stays
   * consistent.
   */
  lemma {:induction false} RunKeepsSelection(cfg: Config, s: UiState, w: Workspace, events: seq<Event>)
    requires Selected(s) && Consistent(w) && FromButtons(events)
    ensures Selected(Run(cfg, s, w, events).0) && Consistent(Run(cfg, s, w, events).1)
    ensures Run(cfg, s, w, events).0.currentMode == ShimauStep2Hukuro ==> Run(cfg, s, w, events).0.selectedHakoPageId.Some?
    decreases |events|
  {
    if events != [] {
      var init := events[..|events| - 1];
      assert FromButtons(init) by {
        assert forall k :: 0 <= k < |init| ==> init[k] == events[k];
      }
      RunKeepsSelection(cfg, s, w, init);
      var (s', w') := Run(cfg, s, w, init);
      match events[|events| - 1]
      case Detected(id, net) =>
        if s'.isScanningActive && !s'.isLocked {
          HandleConsistent(cfg, s'.(isLocked := true, isFlashing := false, scannedId := id, statusMessage := ProcessingStatus), w', id, net);
        }
      case _ =>
    }
  }

  /**
   * Storing a bag: with a box chosen, step 2 ends in done and back in bag scanning exactly when
   * the bag query is answered, the bag is found or created, the patch and the refetch are
   * answered and both databases exist; the bag's page then holds the chosen box as its only
   * location. Otherwise the error is shown and the mode stays for a retry, and when the bag was
   * neither found nor created the workspace is unchanged.
   */
  lemma Step2StoresBag(cfg: Config, s: UiState, w: Workspace, id: string, net: Net)
    requires Consistent(w) && s.selectedHakoPageId.Some?
    ensures var (r, w') := Step2(cfg, s, w, id, net);
      var found := net.query.Answered? && cfg.hukuroDatabase in w.databases
        && (net.create.Answered? || exists i :: 0 <= i < |w.pages| && Hit(w.pages[i], cfg.hukuroDatabase, BagKey, id));
      var done := found && net.patch.Answered? && s.selectedHakoUid.Some? && net.refetch.Answered?
        && cfg.hakoDatabase in w.databases;
      && (!found ==> w' == w)
      && (done ==>
            && r.resultTitle == DoneTitle && r.currentMode == HukuroScan
            && exists bag :: Stored(cfg.hukuroDatabase, bag) in w'.pages
                 && TitleEquals(bag, BagKey, id) && LocationColumn in bag.properties
                 && bag.properties[LocationColumn] == RelationProperty([s.selectedHakoPageId.value]))
      && (!done ==> r.resultTitle == ErrorTitle && r.currentMode == s.currentMode)
  {
    var (found, w1) := FindOrCreate(w, cfg.hukuroDatabase, BagKey, id, BagName, BagDefaultName, net.query, net.create);
    if found.Success? {
      var k := FindOrCreateStored(w, cfg.hukuroDatabase, BagKey, id, BagName, BagDefaultName, net.query, net.create);
      if net.patch.Answered? {
        FindThenRelate(w, cfg.hukuroDatabase, BagKey, id, BagName, BagDefaultName, net.query, net.create,
                       s.selectedHakoPageId.value, net.patch);
      }
    }
  }

  /** The activity: its screen state, the two databases it works on, and the Notion repository. */
  class MainActivity {
    const repository: NotionRepository
    const config: Config

    var currentMode: ScanMode
    var scannedId: string
    var resultTitle: string
    var statusMessage: string
    var isScanningActive: bool
    var isFlashing: bool
    var isLocked: bool
    var selectedHakoPageId: Option<PageId>
    var selectedHakoUid: Option<string>

    function Ui(): UiState
      reads this
    {
      UiState(currentMode, scannedId, resultTitle, statusMessage, isScanningActive, isFlashing, isLocked,
              selectedHakoPageId, selectedHakoUid)
    }

    predicate Valid()
      reads this
    {
      Selected(Ui())
    }

    constructor(repository: NotionRepository, config: Config)
      ensures this.repository == repository && this.config == config
      ensures Ui() == Initial && Valid()
    {
      this.repository := repository;
      this.config := config;
      currentMode := HukuroScan;
      scannedId := "-";
      resultTitle := "";
      statusMessage := IdleStatus;
      isScanningActive := false;
      isFlashing := false;
      isLocked := false;
      selectedHakoPageId := None;
      selectedHakoUid := None;
    }

    /** The `onModeChange` callback. */
    method OnModeChange(mode: ScanMode)
      modifies this
      ensures Ui() == ModeChanged(old(Ui()), mode)
      ensures old(Valid()) && (mode == ShimauStep2Hukuro ==> old(selectedHakoPageId).Some?) ==> Valid()
    {
      currentMode := mode;
      scannedId := "-";
      resultTitle := "";
      isScanningActive := true;
      statusMessage := StatusFor(mode);
    }

    /** The `onCancel` callback. */
    method OnCancel()
      modifies this
      ensures Ui() == Cancelled(old(Ui()))
      ensures old(Valid()) ==> Valid()
    {
      isScanningActive := false;
      statusMessage := IdleStatus;
    }

    /** `onTagDiscovered`: a tag without an id is ignored; otherwise its uid is scanned. */
    method OnTagDiscovered(tagId: Option<seq<Byte>>, net: Net)
      modifies this, repository
      ensures tagId.None? ==> Ui() == old(Ui()) && repository.workspace == old(repository.workspace)
      ensures tagId.Some? ==>
        (Ui(), repository.workspace) == Scan(config, old(Ui()), old(repository.workspace), Uid(tagId.value), net)
      ensures old(Valid()) ==> Valid()
      ensures old(repository.Valid()) ==> repository.Valid()
    {
      if tagId.None? {
        return;
      }
      var uid := Uid(tagId.value);
      OnIdDetected(uid, net);
    }

    method OnIdDetected(id: string, net: Net)
      modifies this, repository
      ensures (Ui(), repository.workspace) == Scan(config, old(Ui()), old(repository.workspace), id, net)
      ensures old(Valid()) ==> Valid()
      ensures old(repository.Valid()) ==> repository.Valid()
    {
      if !isScanningActive || isLocked {
        return;
      }
      isLocked := true;
      isFlashing := true;
      scannedId := id;
      statusMessage := ProcessingStatus;
      isFlashing := false;
      ghost var started := Ui();
      assert started == old(Ui()).(isLocked := true, isFlashing := false, scannedId := id, statusMessage := ProcessingStatus);
      ghost var handled := Handle(config, started, old(repository.workspace), id, net);
      match currentMode {
        case HukuroScan => ProcessHukuro(id, net);
        case HakoScan => ProcessHako(id, net);
        case ShimauStep1Hako => ProcessShimauStep1(id, net);
        case ShimauStep2Hukuro => ProcessShimauStep2(id, net);
      }
      assert Ui() == handled.0 && repository.workspace == handled.1;
      isLocked := false;
      assert Ui() == handled.0.(isLocked := false);
    }

    method UpdateUI(title: string, status: string)
      modifies this
      ensures Ui() == Shown(old(Ui()), title, status)
      ensures old(Valid()) ==> Valid()
    {
      resultTitle := title;
      statusMessage := status;
    }

    method ProcessHukuro(id: string, net: Net)
      modifies this, repository
      ensures (Ui(), repository.workspace) == Hukuro(config, old(Ui()), old(repository.workspace), id, net)
      ensures old(Valid()) ==> Valid()
      ensures old(repository.Valid()) ==> repository.Valid()
    {
      var page := repository.FindOrCreatePage(config.hukuroDatabase, BagKey, id, BagName, BagDefaultName, net.query, net.create);
      match page {
        case Success(p) => UpdateUI(DisplayName(p, BagName, id), BagOpenedStatus);
        case Failure(m) => UpdateUI(ErrorTitle, ErrorText(m));
      }
      isScanningActive := false;
    }

    method ProcessHako(id: string, net: Net)
      modifies this, repository
      ensures (Ui(), repository.workspace) == Hako(config, old(Ui()), old(repository.workspace), id, net)
      ensures old(Valid()) ==> Valid()
      ensures old(repository.Valid()) ==> repository.Valid()
    {
      var page := repository.FindOrCreatePage(config.hakoDatabase, BoxKey, id, BoxName, BoxDefaultName, net.query, net.create);
      match page {
        case Success(p) => UpdateUI(DisplayName(p, BoxName, id), BoxOpenedStatus);
        case Failure(m) => UpdateUI(ErrorTitle, ErrorText(m));
      }
      isScanningActive := false;
    }

    method ProcessShimauStep1(id: string, net: Net)
      modifies this, repository
      ensures (Ui(), repository.workspace) == Step1(config, old(Ui()), old(repository.workspace), id, net)
      ensures old(Valid()) ==> Valid()
      ensures old(repository.Valid()) ==> repository.Valid()
    {
      var hakoPage := repository.FindOrCreatePage(config.hakoDatabase, BoxKey, id, BoxName, BoxDefaultName, net.query, net.create);
      assert Ui() == old(Ui());
      match hakoPage
      case Success(p) =>
        selectedHakoPageId := Some(p.id);
        selectedHakoUid := Some(id);
        currentMode := ShimauStep2Hukuro;
        statusMessage := SelectedStatus(DisplayName(p, BoxName, id));
      case Failure(m) =>
        UpdateUI(ErrorTitle, ErrorText(m));
        isScanningActive := false;
    }

    method ProcessShimauStep2(id: string, net: Net)
      modifies this, repository
      ensures (Ui(), repository.workspace) == Step2(config, old(Ui()), old(repository.workspace), id, net)
      ensures old(Valid()) ==> Valid()
      ensures old(repository.Valid()) ==> repository.Valid()
    {
      if selectedHakoPageId.None? {
        return;
      }
      var hakoId := selectedHakoPageId.value;
      var hukuroPage := repository.FindOrCreatePage(config.hukuroDatabase, BagKey, id, BagName, BagDefaultName, net.query, net.create);
      assert Ui() == old(Ui());
      if hukuroPage.Failure? {
        UpdateUI(ErrorTitle, ErrorText(hukuroPage.message));
      } else {
        var patched := repository.UpdateHukuroLocation(hukuroPage.value.id, hakoId, net.patch);
        assert Ui() == old(Ui());
        if patched.Failure? {
          UpdateUI(ErrorTitle, ErrorText(patched.message));
        } else {
          UpdateUI(DoneTitle, LinkedStatus);
          if selectedHakoUid.None? {
            // `!!` throws a NullPointerException, which carries no message.
            UpdateUI(ErrorTitle, ErrorText(None));
          } else {
            var finalHakoPage := repository.GetPage(config.hakoDatabase, BoxKey, selectedHakoUid.value, net.refetch);
            if finalHakoPage.Failure? {
              UpdateUI(ErrorTitle, ErrorText(finalHakoPage.message));
            } else {
              currentMode := HukuroScan;
            }
          }
        }
      }
      isScanningActive := false;
    }
  }
}
