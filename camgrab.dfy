/** The `Grabber` of camgrab: in a loop it fetches an image from a camera URL,
    saves it under a path rendered from a template and the current time,
    hands it to a callable, and sleeps. The outside world (HTTP, the clock,
    the file system, the callable, `sleep`) is an `Environment` that answers
    from fixed tables and records every call made into it. */
module Camgrab {
  import opened PathTemplate

  datatype Option<T> = None | Some(value: T)

  /** An image as fetched and decoded; only its identity matters here. */
  type Image = nat

  /** What `get_image_from_url` gives: an image, or the exception that
      `urlopen` or Pillow raised, told apart by its message. */
  datatype Fetched = Received(image: Image) | Failed(reason: string)

  /** The `saved` keyword handed to the callable: Python's `False` when no
      save was attempted, and `None` (what `do_save_image` returns) when one
      was. */
  datatype SavedFlag = SavedFalse | SavedNone

  /** The calls the grabber makes into the outside world. */
  datatype Event =
    | Urlopen(url: string, timeout: int)        // urlopen(url, timeout=timeout)
    | Makedirs(path: string)                    // makedirs(path, exist_ok=True)
    | ImSave(image: Image, path: string)        // im.save(path)
    | Callback(image: Image, saved: SavedFlag)  // send_to_callable(im, saved=...)
    | Sleep(seconds: real)                      // sleep(seconds)

  /** The exceptions that leave `tick` and `begin`. */
  datatype Error =
    | DownloadError(reason: string)       // whatever get_image_from_url raised
    | TemplateError(error: FormatError)   // str.format rejected the save path
    | DirectoryError(path: string)        // makedirs('') raises FileNotFoundError
    | SleepError(seconds: real)           // sleep of a negative time raises ValueError

  datatype Outcome = Completed | Raised(error: Error)

  /** What the outside world has seen: the calls made so far, in order, and
      how many images and clock readings have been taken. */
  datatype World = World(log: seq<Event>, fetches: nat, clockReads: nat)

  datatype Step = Step(outcome: Outcome, after: World)

  /** The fields of a grabber. A `save_to` or `save_filename` of `None` is
      written as the empty string (both are falsy); the callable only by
      whether one is set. */
  datatype Settings = Settings(url: string, every: real, saveTo: string, sendToCallable: bool,
                               timeout: int, saveFilename: string, save: bool,
                               testMaxTicks: Option<int>)

  const DefaultSaveFilename: string := "{Y}-{m}{d}/{H}/{y}{m}{d}-{H}{M}{S}-{f}.jpg"

  // ---------------------------------------------------------------------------
  // The grabber's behaviour as functions of its settings and of the world

  function Record(w: World, e: Event): World {
    w.(log := w.log + [e])
  }

  /** Whether `should_save_image` holds for these settings. */
  predicate SavingEnabled(s: Settings) {
    s.save && s.saveFilename != [] && s.saveTo != []
  }

  /** The template `'{save_to}/{save_filename}'.format(...)` builds. */
  function RawSavePath(s: Settings): string {
    s.saveTo + "/" + s.saveFilename
  }

  /** `get_full_save_path` at the instant `now`. */
  function FullSavePath(s: Settings, now: Instant): Result<string> {
    Format(RawSavePath(s), now)
  }

  /** `do_save_image`: read the clock once, render the path, create its
      directory, save. */
  function SaveSpec(s: Settings, im: Image, w: World, clock: nat -> Instant): Step {
    var w1 := w.(clockReads := w.clockReads + 1);
    match FullSavePath(s, clock(w.clockReads))
    case Failure(e) => Step(Raised(TemplateError(e)), w1)
    case Success(p) =>
      var w2 := Record(w1, Makedirs(Dirname(p)));
      if Dirname(p) == [] then Step(Raised(DirectoryError(Dirname(p))), w2)
      else Step(Completed, Record(w2, ImSave(im, p)))
  }

  function NotifySpec(s: Settings, im: Image, saved: SavedFlag, w: World): World {
    if s.sendToCallable then Record(w, Callback(im, saved)) else w
  }

  /** `handle_received_image`. */
  function HandleSpec(s: Settings, im: Image, w: World, clock: nat -> Instant): Step {
    if SavingEnabled(s) then
      var st := SaveSpec(s, im, w, clock);
      if st.outcome.Raised? then st else Step(Completed, NotifySpec(s, im, SavedNone, st.after))
    else Step(Completed, NotifySpec(s, im, SavedFalse, w))
  }

  /** `tick`: fetch, then handle the image; a failed fetch re-raises. */
  function TickSpec(s: Settings, w: World, camera: nat -> Fetched, clock: nat -> Instant): Step {
    var w1 := World(w.log + [Urlopen(s.url, s.timeout)], w.fetches + 1, w.clockReads);
    match camera(w.fetches)
    case Failed(reason) => Step(Raised(DownloadError(reason)), w1)
    case Received(im) => HandleSpec(s, im, w1, clock)
  }

  function SleepSpec(seconds: real, w: World): Step {
    var w1 := Record(w, Sleep(seconds));
    if seconds < 0.0 then Step(Raised(SleepError(seconds)), w1) else Step(Completed, w1)
  }

  /** The first `k` rounds of `begin`'s loop, each a tick and then a sleep.
      The first exception ends the run. */
  function Run(s: Settings, w: World, camera: nat -> Fetched, clock: nat -> Instant, k: nat): Step {
    if k == 0 then Step(Completed, w)
    else
      var st := Run(s, w, camera, clock, k - 1);
      if st.outcome.Raised? then st
      else
        var t := TickSpec(s, st.after, camera, clock);
        if t.outcome.Raised? then t else SleepSpec(s.every, t.after)
  }

  /** How many rounds `begin` runs when nothing raises: `_test_max_ticks` when
      it is positive and none when it is zero or negative. With `None` the
      loop never ends on its own; `horizon` is the number of rounds after
      which it is stopped from outside. */
  function Rounds(limit: Option<int>, horizon: nat): nat {
    match limit
    case None => horizon
    case Some(n) => if n > 0 then n else 0
  }

  // ---------------------------------------------------------------------------
  // The outside world

  class Environment {
    const camera: nat -> Fetched
    const clock: nat -> Instant
    var log: seq<Event>
    var fetches: nat
    var clockReads: nat

    constructor (camera: nat -> Fetched, clock: nat -> Instant)
      ensures this.camera == camera && this.clock == clock
      ensures State() == World([], 0, 0)
    {
      this.camera := camera;
      this.clock := clock;
      log := [];
      fetches := 0;
      clockReads := 0;
    }

    function State(): World
      reads this
    {
      World(log, fetches, clockReads)
    }

    /** `urlopen` plus decoding: the next answer of the camera. */
    method Open(url: string, timeout: int) returns (r: Fetched)
      modifies this
      ensures State() == World(old(log) + [Urlopen(url, timeout)], old(fetches) + 1, old(clockReads))
      ensures r == camera(old(fetches))
    {
      r := camera(fetches);
      log := log + [Urlopen(url, timeout)];
      fetches := fetches + 1;
    }

    /** `datetime.now()`. */
    method Now() returns (t: Instant)
      modifies this
      ensures State() == old(State()).(clockReads := old(clockReads) + 1)
      ensures t == clock(old(clockReads))
    {
      t := clock(clockReads);
      clockReads := clockReads + 1;
    }

    /** `makedirs(path, exist_ok=True)`; an existing directory is no error,
        the empty path is. */
    method CreateDirs(path: string) returns (ok: bool)
      modifies this
      ensures State() == Record(old(State()), Makedirs(path))
      ensures ok <==> path != []
    {
      log := log + [Makedirs(path)];
      ok := path != [];
    }

    method SaveImage(im: Image, path: string)
      modifies this
      ensures State() == Record(old(State()), ImSave(im, path))
    {
      log := log + [ImSave(im, path)];
    }

    method Notify(im: Image, saved: SavedFlag)
      modifies this
      ensures State() == Record(old(State()), Callback(im, saved))
    {
      log := log + [Callback(im, saved)];
    }

    /** `sleep(seconds)`, which refuses a negative time. */
    method Pause(seconds: real) returns (ok: bool)
      modifies this
      ensures State() == Record(old(State()), Sleep(seconds))
      ensures ok <==> seconds >= 0.0
    {
      log := log + [Sleep(seconds)];
      ok := seconds >= 0.0;
    }
  }

  // ---------------------------------------------------------------------------
  // The grabber

  class Grabber {
    var url: string
    var every: real
    var saveTo: string
    var sendToCallable: bool
    var timeout: int
    var saveFilename: string
    var save: bool
    var testMaxTicks: Option<int>

    constructor (url: string, every: real := 2.0, saveTo: string := "grabbed_images",
                 sendToCallable: bool := false)
      ensures Config() == Settings(url, every, saveTo, sendToCallable, 30, DefaultSaveFilename, true, None)
    {
      this.url := url;
      this.every := every;
      this.saveTo := saveTo;
      this.sendToCallable := sendToCallable;
      timeout := 30;
      saveFilename := DefaultSaveFilename;
      save := true;
      testMaxTicks := None;
    }

    function Config(): Settings
      reads this
    {
      Settings(url, every, saveTo, sendToCallable, timeout, saveFilename, save, testMaxTicks)
    }

    method Begin(env: Environment, horizon: nat) returns (outcome: Outcome)
      modifies env
      ensures Step(outcome, env.State()) ==
              Run(Config(), old(env.State()), env.camera, env.clock, Rounds(testMaxTicks, horizon))
    {
      ghost var w0 := env.State();
      ghost var total := Rounds(testMaxTicks, horizon);
      var counter := 0;
      var rounds := 0;
      outcome := Completed;
      while (testMaxTicks.None? && rounds < horizon) || (testMaxTicks.Some? && counter < testMaxTicks.value)
        invariant rounds <= total
        invariant testMaxTicks.Some? ==> counter == rounds
        invariant Run(Config(), w0, env.camera, env.clock, rounds) == Step(outcome, env.State())
        invariant outcome == Completed
        decreases total - rounds
      {
        outcome := Tick(env);
        if outcome.Raised? {
          RunStaysRaised(Config(), w0, env.camera, env.clock, rounds + 1, total);
          return;
        }
        var ok := env.Pause(every);
        if !ok {
          outcome := Raised(SleepError(every));
          RunStaysRaised(Config(), w0, env.camera, env.clock, rounds + 1, total);
          return;
        }
        if testMaxTicks.Some? && testMaxTicks.value != 0 {
          counter := counter + 1;
        }
        rounds := rounds + 1;
      }
    }

    method Tick(env: Environment) returns (outcome: Outcome)
      modifies env
      ensures Step(outcome, env.State()) == TickSpec(Config(), old(env.State()), env.camera, env.clock)
    {
      var fetched := GetImageFromUrl(env);
      match fetched
      case Failed(reason) =>
        outcome := Raised(DownloadError(reason));
      case Received(im) =>
        outcome := HandleReceivedImage(env, im);
    }

    method GetImageFromUrl(env: Environment) returns (r: Fetched)
      modifies env
      ensures env.State() == World(old(env.log) + [Urlopen(url, timeout)], old(env.fetches) + 1, old(env.clockReads))
      ensures r == env.camera(old(env.fetches))
    {
      r := env.Open(url, timeout);
    }

    method HandleReceivedImage(env: Environment, im: Image) returns (outcome: Outcome)
      modifies env
      ensures Step(outcome, env.State()) == HandleSpec(Config(), im, old(env.State()), env.clock)
    {
      var saved := SavedFalse;
      var wanted := ShouldSaveImage();
      if wanted {
        outcome := DoSaveImage(env, im);
        if outcome.Raised? {
          return;
        }
        saved := SavedNone;
      }
      if sendToCallable {
        env.Notify(im, saved);
      }
      outcome := Completed;
    }

    /** Saving is switched on and both halves of the save path are set. */
    method ShouldSaveImage() returns (b: bool)
      ensures b <==> save && saveFilename != [] && saveTo != []
      ensures b == SavingEnabled(Config())
    {
      b := save && saveFilename != [] && saveTo != [];
    }

    method DoSaveImage(env: Environment, im: Image) returns (outcome: Outcome)
      modifies env
      ensures Step(outcome, env.State()) == SaveSpec(Config(), im, old(env.State()), env.clock)
    {
      var path := GetFullSavePath(env);
      match path
      case Failure(e) =>
        outcome := Raised(TemplateError(e));
      case Success(p) =>
        var ok := MakeSavePathDirs(env, p);
        if !ok {
          outcome := Raised(DirectoryError(Dirname(p)));
          return;
        }
        env.SaveImage(im, p);
        outcome := Completed;
    }

    method GetFullSavePath(env: Environment) returns (r: Result<string>)
      modifies env
      ensures env.State() == old(env.State()).(clockReads := old(env.clockReads) + 1)
      ensures r == FullSavePath(Config(), env.clock(old(env.clockReads)))
    {
      var raw := saveTo + "/" + saveFilename;
      r := FormatPath(env, raw);
    }

    method MakeSavePathDirs(env: Environment, savePath: string) returns (ok: bool)
      modifies env
      ensures env.State() == Record(old(env.State()), Makedirs(Dirname(savePath)))
      ensures ok <==> Dirname(savePath) != []
    {
      ok := env.CreateDirs(Dirname(savePath));
    }

    method FormatPath(env: Environment, path: string) returns (r: Result<string>)
      modifies env
      ensures env.State() == old(env.State()).(clockReads := old(env.clockReads) + 1)
      ensures r == Format(path, env.clock(old(env.clockReads)))
    {
      var now := env.Now();
      r := Format(path, now);
    }
  }

  // ---------------------------------------------------------------------------
  // Properties of a run

  /** Once a run has raised, later rounds change nothing. */
  lemma {:induction false} RunStaysRaised(s: Settings, w: World, camera: nat -> Fetched,
                                          clock: nat -> Instant, j: nat, k: nat)
    requires j <= k && Run(s, w, camera, clock, j).outcome.Raised?
    ensures Run(s, w, camera, clock, k) == Run(s, w, camera, clock, j)
    decreases k
  {
    if k > j {
      RunStaysRaised(s, w, camera, clock, j, k - 1);
    }
  }

  /** The calls that mark rounds in a log: the fetches and the sleeps. */
  function Cadence(log: seq<Event>): seq<Event> {
    if log == [] then []
    else
      var e := log[|log| - 1];
      Cadence(log[..|log| - 1]) + if e.Urlopen? || e.Sleep? then [e] else []
  }

  lemma {:induction false} CadenceAppend(a: seq<Event>, b: seq<Event>)
    ensures Cadence(a + b) == Cadence(a) + Cadence(b)
    decreases |b|
  {
    if b == [] {
      assert a + b == a;
    } else {
      assert (a + b)[..|a + b| - 1] == a + b[..|b| - 1];
      CadenceAppend(a, b[..|b| - 1]);
    }
  }

  /** `n` rounds as Cadence sees them: a fetch, then one sleep, `n` times. */
  function Rhythm(s: Settings, n: nat): seq<Event> {
    if n == 0 then [] else Rhythm(s, n - 1) + [Urlopen(s.url, s.timeout), Sleep(s.every)]
  }

  /** The save path renders whatever the time. */
  ghost predicate SavePathRenders(s: Settings) {
    forall now: Instant :: FullSavePath(s, now).Success?
  }

  /** The calls saving makes: create the directory, then save into it. */
  function SaveCalls(s: Settings, im: Image, now: Instant): seq<Event>
    requires SavingEnabled(s) ==> FullSavePath(s, now).Success?
  {
    if SavingEnabled(s) then
      var p := FullSavePath(s, now).value;
      [Makedirs(Dirname(p)), ImSave(im, p)]
    else []
  }

  /** The call of the callable, if one is set, telling it whether a save was
      attempted. */
  function CallbackCalls(s: Settings, im: Image): seq<Event> {
    if s.sendToCallable then [Callback(im, if SavingEnabled(s) then SavedNone else SavedFalse)] else []
  }

  /** A rendered save path always has a directory part, so `makedirs` is
      never handed the empty path: the `/` after a non-empty `save_to`
      survives rendering and is not its first character. */
  lemma SaveDirectoryNonEmpty(s: Settings, now: Instant)
    requires SavingEnabled(s) && FullSavePath(s, now).Success?
    ensures Dirname(FullSavePath(s, now).value) != []
  {
    var raw := RawSavePath(s);
    assert raw[|s.saveTo|] == '/';
    var i := FormatKeepsSlash(raw, |s.saveTo|, now);
    DirnameNonEmpty(FullSavePath(s, now).value, i);
  }

  /** A tick whose image arrives: one fetch; a save exactly when
      `should_save_image` holds, with the clock read once for it and the
      directory created first; then one call of the callable, if set, told
      `None` after a save and `False` otherwise. Nothing raises, since in this
      model `im.save` cannot fail and the directory is never empty. */
  lemma TickEffects(s: Settings, w: World, camera: nat -> Fetched, clock: nat -> Instant)
    requires camera(w.fetches).Received?
    requires SavingEnabled(s) ==> FullSavePath(s, clock(w.clockReads)).Success?
    ensures TickSpec(s, w, camera, clock).outcome == Completed
    ensures TickSpec(s, w, camera, clock).after.log ==
            w.log + [Urlopen(s.url, s.timeout)]
            + SaveCalls(s, camera(w.fetches).image, clock(w.clockReads))
            + CallbackCalls(s, camera(w.fetches).image)
    ensures TickSpec(s, w, camera, clock).after.fetches == w.fetches + 1
    ensures TickSpec(s, w, camera, clock).after.clockReads ==
            w.clockReads + if SavingEnabled(s) then 1 else 0
  {
    var im := camera(w.fetches).image;
    var log1 := w.log + [Urlopen(s.url, s.timeout)];
    if SavingEnabled(s) {
      SaveDirectoryNonEmpty(s, clock(w.clockReads));
      var p := FullSavePath(s, clock(w.clockReads)).value;
      assert log1 + [Makedirs(Dirname(p))] + [ImSave(im, p)] == log1 + [Makedirs(Dirname(p)), ImSave(im, p)];
    } else {
      assert log1 + [] == log1;
    }
    assert !s.sendToCallable ==> log1 + SaveCalls(s, im, clock(w.clockReads)) + [] ==
                                 log1 + SaveCalls(s, im, clock(w.clockReads));
  }

  /** A round whose image arrives and whose sleep time is accepted: of its
      calls only the fetch and the sleep mark the round. */
  lemma RoundCompletes(s: Settings, w: World, camera: nat -> Fetched, clock: nat -> Instant)
    requires s.every >= 0.0
    requires camera(w.fetches).Received?
    requires SavingEnabled(s) ==> FullSavePath(s, clock(w.clockReads)).Success?
    ensures TickSpec(s, w, camera, clock).outcome == Completed
    ensures SleepSpec(s.every, TickSpec(s, w, camera, clock).after).outcome == Completed
    ensures SleepSpec(s.every, TickSpec(s, w, camera, clock).after).after.fetches == w.fetches + 1
    ensures Cadence(SleepSpec(s.every, TickSpec(s, w, camera, clock).after).after.log) ==
            Cadence(w.log) + [Urlopen(s.url, s.timeout), Sleep(s.every)]
  {
    TickEffects(s, w, camera, clock);
    var im := camera(w.fetches).image;
    CadenceOfHandling(s, im, clock(w.clockReads));
    RoundCadence(w.log, Urlopen(s.url, s.timeout), SaveCalls(s, im, clock(w.clockReads)),
                 CallbackCalls(s, im), Sleep(s.every));
  }

  lemma RoundCadence(log: seq<Event>, fetch: Event, saves: seq<Event>, callbacks: seq<Event>, sleep: Event)
    requires fetch.Urlopen? && sleep.Sleep? && Cadence(saves) == [] && Cadence(callbacks) == []
    ensures Cadence(log + [fetch] + saves + callbacks + [sleep]) == Cadence(log) + [fetch, sleep]
  {
    assert Cadence(log + [fetch]) == Cadence(log) + [fetch] by {
      CadenceAppend(log, [fetch]);
      assert [fetch][..0] == [];
    }
    assert Cadence(log + [fetch] + saves + callbacks) == Cadence(log) + [fetch] by {
      CadenceAppend(log + [fetch], saves);
      CadenceAppend(log + [fetch] + saves, callbacks);
    }
    CadenceAppend(log + [fetch] + saves + callbacks, [sleep]);
    assert [sleep][..0] == [];
  }

  /** Handling an image makes no call that marks a round. */
  lemma CadenceOfHandling(s: Settings, im: Image, now: Instant)
    requires SavingEnabled(s) ==> FullSavePath(s, now).Success?
    ensures Cadence(SaveCalls(s, im, now)) == [] && Cadence(CallbackCalls(s, im)) == []
  {
    if SavingEnabled(s) {
      var p := FullSavePath(s, now).value;
      var calls := [Makedirs(Dirname(p)), ImSave(im, p)];
      assert calls[..1][..0] == [];
      assert Cadence(calls[..1]) == [];
    }
  }

  /** With a sleep time that `sleep` accepts, a camera that delivers and a
      save path that renders, `k` rounds all complete: exactly `k` fetches,
      each followed by exactly one sleep. */
  lemma {:induction false} RunCompletes(s: Settings, w: World, camera: nat -> Fetched,
                                        clock: nat -> Instant, k: nat)
    requires s.every >= 0.0
    requires forall i :: w.fetches <= i < w.fetches + k ==> camera(i).Received?
    requires SavingEnabled(s) ==> SavePathRenders(s)
    ensures Run(s, w, camera, clock, k).outcome == Completed
    ensures Run(s, w, camera, clock, k).after.fetches == w.fetches + k
    ensures Cadence(Run(s, w, camera, clock, k).after.log) == Cadence(w.log) + Rhythm(s, k)
  {
    if k > 0 {
      RunCompletes(s, w, camera, clock, k - 1);
      var w' := Run(s, w, camera, clock, k - 1).after;
      assert camera(w'.fetches).Received? by {
        assert w.fetches <= w'.fetches < w.fetches + k;
      }
      assert SavingEnabled(s) ==> FullSavePath(s, clock(w'.clockReads)).Success?;
      RoundCompletes(s, w', camera, clock);
      RhythmCadence(Cadence(w.log), s, k);
    }
  }

  /** `begin` with `_test_max_ticks = n`: when every round delivers, a positive
      `n` gives exactly `n` fetches, each followed by exactly one sleep, and
      zero or a negative `n` gives no round at all, leaving the world as it
      was. `Begin` behaves as `Run` for `Rounds(testMaxTicks, horizon)`. */
  lemma TickLimitHonoured(s: Settings, w: World, camera: nat -> Fetched, clock: nat -> Instant,
                          horizon: nat, n: int)
    requires s.testMaxTicks == Some(n) && s.every >= 0.0
    requires forall i :: w.fetches <= i < w.fetches + n ==> camera(i).Received?
    requires SavingEnabled(s) ==> SavePathRenders(s)
    ensures Run(s, w, camera, clock, Rounds(s.testMaxTicks, horizon)).outcome == Completed
    ensures n > 0 ==> Run(s, w, camera, clock, Rounds(s.testMaxTicks, horizon)).after.fetches == w.fetches + n
    ensures n > 0 ==> Cadence(Run(s, w, camera, clock, Rounds(s.testMaxTicks, horizon)).after.log) ==
                      Cadence(w.log) + Rhythm(s, n)
    ensures n <= 0 ==> Run(s, w, camera, clock, Rounds(s.testMaxTicks, horizon)).after == w
  {
    if n > 0 {
      RunCompletes(s, w, camera, clock, n);
    }
  }

  lemma RhythmCadence(c: seq<Event>, s: Settings, k: nat)
    requires k > 0
    ensures c + Rhythm(s, k - 1) + [Urlopen(s.url, s.timeout), Sleep(s.every)] == c + Rhythm(s, k)
  {
  }

  /** A fetch that fails ends the run with the fetch's own exception: after
      the failing request nothing is saved, sent or slept. */
  lemma RunStopsAtFailedFetch(s: Settings, w: World, camera: nat -> Fetched,
                              clock: nat -> Instant, j: nat, k: nat)
    requires j < k && Run(s, w, camera, clock, j).outcome == Completed
    requires camera(Run(s, w, camera, clock, j).after.fetches).Failed?
    ensures var before := Run(s, w, camera, clock, j).after;
            Run(s, w, camera, clock, k) ==
            Step(Raised(DownloadError(camera(before.fetches).reason)),
                 World(before.log + [Urlopen(s.url, s.timeout)], before.fetches + 1, before.clockReads))
  {
    RunStaysRaised(s, w, camera, clock, j + 1, k);
  }

  /** When `save_to` holds no braces it is copied into the save path as it
      is, and the filename template alone decides what is rendered. */
  lemma FullSavePathJoins(s: Settings, now: Instant)
    requires forall i :: 0 <= i < |s.saveTo| ==> s.saveTo[i] != '{' && s.saveTo[i] != '}'
    ensures FullSavePath(s, now).Success? <==> Format(s.saveFilename, now).Success?
    ensures FullSavePath(s, now).Success? ==>
            FullSavePath(s, now).value == s.saveTo + "/" + Format(s.saveFilename, now).value
  {
    var dir := s.saveTo + "/";
    FormatNoBraces(dir, now);
    FormatAppend(dir, s.saveFilename, now);
  }
}
