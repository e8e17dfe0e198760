/** `KeyboardState`: what the game knows of each key, frame by frame. Every
    key seen so far maps to whether it was down last frame and whether it is
    down this frame; the queries read edges off that pair. */
module Keyboard {
  import opened Wrappers

  /** winit's `VirtualKeyCode`. Only F1 is singled out by the code modelled
      here; every other key is told apart by a number. */
  datatype KeyCode = F1 | OtherKey(id: nat)

  /** winit's `ElementState`. */
  datatype ElementState = Pressed | Released

  /** winit's `KeyboardInput`: the key, when winit could name it, and
      whether it went down or up. */
  datatype KeyboardInput = KeyboardInput(virtualKeycode: Option<KeyCode>, state: ElementState)

  /** The pair kept per key: down last frame, down this frame. */
  datatype KeyFrames = KeyFrames(lastFrame: bool, thisFrame: bool)

  /** The key map after `input`. An input without a key code changes
      nothing. Otherwise only that key's entry changes, and only its
      this-frame half, which records whether the key went down; a key seen
      for the first time starts as up last frame. */
  function AfterInput(keys: map<KeyCode, KeyFrames>, input: KeyboardInput): (r: map<KeyCode, KeyFrames>)
    ensures input.virtualKeycode.None? ==> r == keys
    ensures input.virtualKeycode.Some? ==>
              var code := input.virtualKeycode.value;
              && r.Keys == keys.Keys + {code}
              && r[code].thisFrame == (input.state == Pressed)
              && r[code].lastFrame == (code in keys && keys[code].lastFrame)
              && forall k :: k in keys && k != code ==> r[k] == keys[k]
  {
    match input.virtualKeycode
    case None => keys
    case Some(code) =>
      var entry := if code in keys then keys[code] else KeyFrames(false, false);
      keys[code := entry.(thisFrame := input.state == Pressed)]
  }

  /** No key is marked as down last frame. */
  predicate NoneHeldOver(keys: map<KeyCode, KeyFrames>) {
    forall k :: k in keys ==> !keys[k].lastFrame
  }

  /** Input alone never marks a key as down last frame: the only mutator
      writes the this-frame half, and new keys start as up last frame. */
  lemma InputKeepsNoneHeldOver(keys: map<KeyCode, KeyFrames>, input: KeyboardInput)
    requires NoneHeldOver(keys)
    ensures NoneHeldOver(AfterInput(keys, input))
  {
  }

  class KeyboardState {
    var keys: map<KeyCode, KeyFrames>

    /** `KeyboardState(HashMap::new())`: no key seen yet. */
    constructor ()
      ensures keys == map[]
      ensures NoneHeldOver(keys)
    {
      keys := map[];
    }

    /** `handle_input`: records the new state of the event's key. */
    method HandleInput(input: KeyboardInput)
      modifies this
      ensures keys == AfterInput(old(keys), input)
      ensures input.virtualKeycode.Some? ==> IsPressed(input.virtualKeycode.value) == (input.state == Pressed)
      ensures forall k :: (input.virtualKeycode.None? || k != input.virtualKeycode.value) ==>
                IsPressed(k) == old(IsPressed(k)) && IsJustPressed(k) == old(IsJustPressed(k))
                && IsJustReleased(k) == old(IsJustReleased(k))
      ensures old(NoneHeldOver(keys)) ==> NoneHeldOver(keys)
    {
      match input.virtualKeycode
      case None =>
      case Some(code) =>
        var entry := if code in keys then keys[code] else KeyFrames(false, false);
        keys := keys[code := entry.(thisFrame := input.state == Pressed)];
    }

    /** `is_pressed`: the key is down this frame; false for a key never
        seen. */
    function IsPressed(key: KeyCode): (r: bool)
      reads this
      ensures r <==> key in keys && keys[key].thisFrame
      ensures key !in keys ==> !r
    {
      match if key in keys then Some(keys[key]) else None
      case Some(frames) => frames.thisFrame
      case None => false
    }

    /** `is_just_pressed`: down this frame and up the frame before. */
    function IsJustPressed(key: KeyCode): (r: bool)
      reads this
      ensures r <==> key in keys && !keys[key].lastFrame && keys[key].thisFrame
      ensures key !in keys ==> !r
      ensures r ==> IsPressed(key)
    {
      match if key in keys then Some(keys[key]) else None
      case Some(frames) => !frames.lastFrame && frames.thisFrame
      case None => false
    }

    /** `is_just_released`: up this frame and down the frame before. */
    function IsJustReleased(key: KeyCode): (r: bool)
      reads this
      ensures r <==> key in keys && keys[key].lastFrame && !keys[key].thisFrame
      ensures key !in keys ==> !r
      ensures r ==> !IsPressed(key) && !IsJustPressed(key)
    {
      match if key in keys then Some(keys[key]) else None
      case Some(frames) => frames.lastFrame && !frames.thisFrame
      case None => false
    }
  }

  /** While no key is marked as down last frame, which input alone keeps
      so, "just pressed" is "pressed" and nothing is ever "just released". */
  lemma EdgesWithoutFrameAdvance(kb: KeyboardState, key: KeyCode)
    requires NoneHeldOver(kb.keys)
    ensures kb.IsJustPressed(key) == kb.IsPressed(key)
    ensures !kb.IsJustReleased(key)
  {
  }
}
