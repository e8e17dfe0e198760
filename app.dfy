/** `App`: the stack of game states, the keyboard, the texture cache and the
    FPS overlay switch. Game states are values of a type `S` whose own
    behaviour (updating, handling events) comes in as functions. */
module Application {
  import opened Wrappers
  import opened Keyboard
  import opened Textures

  /** What a game state asks for at the end of its update. */
  datatype StateTransition<S> = Continue | Push(next: S) | Swap(next: S) | Pop | Exit

  /** The state on top of the stack: the one that runs. */
  function Top<S>(stack: seq<S>): S
    requires |stack| > 0
  {
    stack[|stack| - 1]
  }

  /** The states under the top one. */
  function Below<S>(stack: seq<S>): seq<S>
    requires |stack| > 0
  {
    stack[..|stack| - 1]
  }

  /** The stack after its top state asked for `t`: `Push` puts a state on
      top, `Pop` returns to the state underneath, `Swap` replaces the top
      state and nothing under it, `Continue` and `Exit` keep the stack. */
  function Transition<S>(stack: seq<S>, t: StateTransition<S>): (r: seq<S>)
    requires |stack| > 0
    ensures t.Push? ==> |r| == |stack| + 1 && Top(r) == t.next && Below(r) == stack
    ensures t.Pop? ==> r == Below(stack)
    ensures t.Swap? ==> |r| == |stack| && Top(r) == t.next && Below(r) == Below(stack)
    ensures t.Continue? || t.Exit? ==> r == stack
  {
    match t
    case Push(next) => stack + [next]
    case Pop => stack[..|stack| - 1]
    case Swap(next) => stack[..|stack| - 1] + [next]
    case Continue => stack
    case Exit => stack
  }

  /** Popping a state that was just pushed returns to where the game was. */
  lemma PopUndoesPush<S>(stack: seq<S>, s: S)
    requires |stack| > 0
    ensures Transition(Transition(stack, Push(s)), Pop) == stack
  {
    var pushed := Transition(stack, Push(s));
    assert Below(pushed) == stack;
  }

  /** Popping after a swap goes to the same state as popping at once. */
  lemma PopAfterSwap<S>(stack: seq<S>, s: S)
    requires |stack| > 0
    ensures Transition(Transition(stack, Swap(s)), Pop) == Transition(stack, Pop)
  {
  }

  /** Popping the only state leaves no state to run. */
  lemma PopLast<S>(s: S)
    ensures Transition([s], Pop) == []
  {
  }

  /** winit's `WindowEvent`, as far as the app looks at it. */
  datatype WindowEvent = KeyboardInputEvent(input: KeyboardInput, isSynthetic: bool) | OtherEvent

  /** The event is real keyboard input, which the keyboard records. */
  predicate RecordsInput(event: WindowEvent) {
    event.KeyboardInputEvent? && !event.isSynthetic
  }

  /** The textures loaded before the first game state is built. */
  const Preloaded: seq<string> :=
    ["don.png", "kat.png", "big_don.png", "big_kat.png", "drumroll_start.png", "big_drumroll_start.png"]

  /** The load paths of `names`, in order. */
  function SpritePaths(names: seq<string>): (ps: seq<string>)
    ensures |ps| == |names|
    ensures forall i :: 0 <= i < |names| ==> ps[i] == SpritePath(names[i])
  {
    seq(|names|, i requires 0 <= i < |names| => SpritePath(names[i]))
  }

  /** The preloaded names are distinct, so each of them is a miss. */
  lemma PreloadedDistinct()
    ensures forall i, j :: 0 <= i < j < |Preloaded| ==> Preloaded[i] != Preloaded[j]
  {
  }

  /** The cache after loading every one of `names`, when all of them load:
      each name maps to the texture loaded from its sprite path. */
  function Preloads(load: string -> Result<Texture, LoadError>, names: seq<string>): (m: map<string, Texture>)
    requires forall i :: 0 <= i < |names| ==> load(SpritePath(names[i])).Success?
    ensures m.Keys == set name | name in names
    ensures forall i :: 0 <= i < |names| ==> m[names[i]] == load(SpritePath(names[i])).value
  {
    map name | name in names :: load(SpritePath(name)).value
  }

  /** Loading one more name adds its path at the end. */
  lemma SpritePathsSnoc(names: seq<string>, i: nat)
    requires i < |names|
    ensures SpritePaths(names[..i + 1]) == SpritePaths(names[..i]) + [SpritePath(names[i])]
  {
    assert SpritePaths(names[..i + 1]) == SpritePaths(names[..i]) + [SpritePath(names[i])];
  }

  /** Loading one more name adds its texture to the cache. */
  lemma PreloadsSnoc(load: string -> Result<Texture, LoadError>, prefix: seq<string>, name: string)
    requires forall j :: 0 <= j < |prefix| ==> load(SpritePath(prefix[j])).Success?
    requires load(SpritePath(name)).Success?
    ensures forall j :: 0 <= j < |prefix + [name]| ==> load(SpritePath((prefix + [name])[j])).Success?
    ensures Preloads(load, prefix + [name]) == Preloads(load, prefix)[name := load(SpritePath(name)).value]
  {
    assert forall j :: 0 <= j < |prefix + [name]| ==> (prefix + [name])[j] == if j < |prefix| then prefix[j] else name;
    assert Preloads(load, prefix + [name]) == Preloads(load, prefix)[name := load(SpritePath(name)).value];
  }

  /** The loop of `App::new` that loads textures ahead of time: every name
      is loaded once, in order, into a new cache. */
  method LoadAll(load: string -> Result<Texture, LoadError>, names: seq<string>) returns (cache: TextureCache)
    requires forall i, j :: 0 <= i < j < |names| ==> names[i] != names[j]
    requires forall i :: 0 <= i < |names| ==> load(SpritePath(names[i])).Success?
    ensures fresh(cache)
    ensures cache.cache == Preloads(load, names)
    ensures cache.loads == SpritePaths(names)
  {
    cache := new TextureCache();
    var i := 0;
    while i < |names|
      invariant 0 <= i <= |names|
      invariant fresh(cache)
      invariant cache.cache == Preloads(load, names[..i])
      invariant cache.loads == SpritePaths(names[..i])
    {
      assert names[i] !in names[..i];
      assert names[..i + 1] == names[..i] + [names[i]];
      PreloadsSnoc(load, names[..i], names[i]);
      var tex := cache.Get(load, names[i]);
      SpritePathsSnoc(names, i);
      i := i + 1;
    }
    assert names[..i] == names;
  }

  class App<S> {
    /** The stack of game states; the last one runs. */
    var state: seq<S>
    var keyboard: KeyboardState
    var textures: TextureCache
    var showFpsCounter: bool

    /** `App::new`: the six preloaded textures are loaded in order (a
        failure there is a panic, so the caller must rule it out), then the
        app starts with `first` as its only state, no key seen and the FPS
        overlay off. */
    constructor (load: string -> Result<Texture, LoadError>, first: S)
      requires forall i :: 0 <= i < |Preloaded| ==> load(SpritePath(Preloaded[i])).Success?
      ensures state == [first]
      ensures fresh(keyboard) && keyboard.keys == map[]
      ensures fresh(textures) && textures.loads == SpritePaths(Preloaded)
      ensures textures.cache == Preloads(load, Preloaded)
      ensures !showFpsCounter
    {
      PreloadedDistinct();
      var cache := LoadAll(load, Preloaded);
      state := [first];
      keyboard := new KeyboardState();
      textures := cache;
      showFpsCounter := false;
    }

    /** `App::update`, without the FPS timing: the top state runs
        (`update` gives its new value and the transition it asks for), then
        the stack follows the transition. The result says whether the event
        loop was told to exit. */
    method Update(update: S -> (S, StateTransition<S>)) returns (exit: bool)
      requires |state| > 0
      modifies this`state
      ensures state == Transition(Below(old(state)) + [update(Top(old(state))).0], update(Top(old(state))).1)
      ensures exit <==> update(Top(old(state))).1.Exit?
    {
      var top := state[|state| - 1];
      var (ran, t) := update(top);
      state := state[..|state| - 1] + [ran];
      exit := t.Exit?;
      match t
      case Push(next) => state := state + [next];
      case Pop => state := state[..|state| - 1];
      case Swap(next) => state := state[..|state| - 1] + [next];
      case Exit =>
      case Continue =>
    }

    /** `App::handle_event`: the top state handles the event first, seeing
        the keyboard as it was before the event; then real keyboard input is
        recorded, and the FPS overlay is switched when F1 has just gone
        down. */
    method HandleEvent(handle: (S, WindowEvent, map<KeyCode, KeyFrames>) -> S, event: WindowEvent)
      requires |state| > 0
      modifies this`state, this`showFpsCounter, keyboard
      ensures state == Below(old(state)) + [handle(Top(old(state)), event, old(keyboard.keys))]
      ensures keyboard.keys == if RecordsInput(event) then AfterInput(old(keyboard.keys), event.input) else old(keyboard.keys)
      ensures showFpsCounter == if RecordsInput(event) && keyboard.IsJustPressed(F1) then !old(showFpsCounter) else old(showFpsCounter)
      ensures old(NoneHeldOver(keyboard.keys)) ==> NoneHeldOver(keyboard.keys)
      ensures old(NoneHeldOver(keyboard.keys)) && RecordsInput(event) && event.input.virtualKeycode == Some(F1) ==>
                showFpsCounter == if event.input.state == Pressed then !old(showFpsCounter) else old(showFpsCounter)
    {
      var top := state[|state| - 1];
      state := state[..|state| - 1] + [handle(top, event, keyboard.keys)];
      if event.KeyboardInputEvent? && !event.isSynthetic {
        keyboard.HandleInput(event.input);
        if keyboard.IsJustPressed(F1) {
          showFpsCounter := !showFpsCounter;
        }
      }
    }
  }
}
