/** The keyboard callback's state: the held-key table and the render-mode selection. */
module Input {
  /** Size of the held-key table. */
  const KeyCount: int := 1024

  /** GLFW key actions; any other action, such as a repeat, leaves the table alone. */
  const Release: int := 0
  const Press: int := 1

  /** GLFW key codes the viewer reacts to. */
  const KeyEscape: int := 256
  const Key1: int := 49
  const Key2: int := 50
  const Key3: int := 51
  const KeyA: int := 65
  const KeyD: int := 68
  const KeyE: int := 69
  const KeyQ: int := 81
  const KeyS: int := 83
  const KeyT: int := 84
  const KeyW: int := 87

  datatype RenderMode = Solid | Wireframe | Points

  /** The held-key table after one key event. */
  function KeyTable(keys: seq<bool>, key: int, action: int): (r: seq<bool>)
    requires |keys| == KeyCount
    ensures |r| == KeyCount
    ensures 0 <= key < KeyCount && action == Press ==> r[key]
    ensures 0 <= key < KeyCount && action == Release ==> !r[key]
    ensures forall k :: 0 <= k < KeyCount && (k != key || (action != Press && action != Release)) ==> r[k] == keys[k]
  {
    if 0 <= key < KeyCount then
      if action == Press then keys[key := true]
      else if action == Release then keys[key := false]
      else keys
    else keys
  }

  /** One key event as GLFW delivers it. */
  datatype KeyEvent = KeyEvent(key: int, action: int)

  /** The table after a sequence of events, the last one applied last. */
  function KeyTableAfter(keys: seq<bool>, events: seq<KeyEvent>): (r: seq<bool>)
    requires |keys| == KeyCount
    ensures |r| == KeyCount
    decreases |events|
  {
    if events == [] then keys
    else
      var last := events[|events| - 1];
      KeyTable(KeyTableAfter(keys, events[..|events| - 1]), last.key, last.action)
  }

  /** Whether key `k` is held: decided by its latest press or release, or its initial state if it has none. */
  function LatestHeld(initial: bool, k: int, events: seq<KeyEvent>): bool
    decreases |events|
  {
    if events == [] then initial
    else
      var last := events[|events| - 1];
      if last.key == k && last.action == Press then true
      else if last.key == k && last.action == Release then false
      else LatestHeld(initial, k, events[..|events| - 1])
  }

  /** The table holds, for every key, exactly its latest press or release; repeats and other keys never change it. */
  lemma {:induction false} KeyTableTracksLatestEvent(keys: seq<bool>, events: seq<KeyEvent>, k: int)
    requires |keys| == KeyCount && 0 <= k < KeyCount
    ensures KeyTableAfter(keys, events)[k] == LatestHeld(keys[k], k, events)
    decreases |events|
  {
    if events != [] {
      KeyTableTracksLatestEvent(keys, events[..|events| - 1], k);
    }
  }

  /** The render mode after one key event: a press of 1, 2 or 3 selects solid, wireframe or points. */
  function ModeAfter(mode: RenderMode, key: int, action: int): (r: RenderMode)
    ensures action != Press ==> r == mode
    ensures action == Press && key == Key1 ==> r == Solid
    ensures action == Press && key == Key2 ==> r == Wireframe
    ensures action == Press && key == Key3 ==> r == Points
    ensures key != Key1 && key != Key2 && key != Key3 ==> r == mode
  {
    if action == Press then
      if key == Key1 then Solid
      else if key == Key2 then Wireframe
      else if key == Key3 then Points
      else mode
    else mode
  }
}
