/**
 * The toast registry: an integer-keyed table of notification toasts with a
 * monotonic id counter. Every operation that names an id does nothing when the
 * id is not in the table. The notification surface (`show_toast`,
 * `remove_toast`) is represented by a ghost log of the calls made to it.
 */
module Toasts {

  /** A button: the caption shown and the argument string delivered when it is pressed. */
  datatype Button = Button(caption: string, tag: string)

  /** A single-line text box: its input id, placeholder and default value. */
  datatype TextInput = TextInput(id: string, placeholder: string, defaultValue: string)

  /**
   * The activation handler bound to a toast. The application binds one of two
   * closures, each capturing the track it was built for.
   */
  datatype CallbackKind =
    | NoCallback
    | InitialDispatch(artist: string, title: string)
    | AskDispatch(artist: string, title: string)

  /** The parts of a toast the application sets. */
  datatype Toast = Toast(
    text: seq<string>,
    images: seq<string>,
    buttons: seq<Button>,
    inputs: seq<TextInput>,
    callback: CallbackKind)

  /** A toast as created: nothing set yet. */
  const EmptyToast := Toast([], [], [], [], NoCallback)

  /** A call made to the notification surface, with the toast it was given. */
  datatype SurfaceCall = Show(id: int, toast: Toast) | Remove(id: int, toast: Toast)

  /** The abstract state of a ToastManager. */
  datatype Registry = Registry(toasts: map<int, Toast>, nextId: int, surface: seq<SurfaceCall>)

  /** Ids start at 1 and every id in the table was handed out before nextId. */
  ghost predicate WellFormed(r: Registry)
  {
    r.nextId >= 1 && forall id :: id in r.toasts ==> 1 <= id < r.nextId
  }

  /** A new manager: no toasts, and the first id to hand out is 1. */
  function Fresh(): Registry
  {
    Registry(map[], 1, [])
  }

  /** Registers an empty toast under nextId and advances the counter; the new id is the old nextId. */
  function Create(r: Registry): Registry
  {
    Registry(r.toasts[r.nextId := EmptyToast], r.nextId + 1, r.surface)
  }

  /** Replaces the text lines of toast `id`. */
  function AddText(r: Registry, id: int, lines: seq<string>): Registry
  {
    if id in r.toasts then r.(toasts := r.toasts[id := r.toasts[id].(text := lines)]) else r
  }

  /** Appends an image to toast `id`. */
  function AddImage(r: Registry, id: int, path: string): Registry
  {
    if id in r.toasts then r.(toasts := r.toasts[id := r.toasts[id].(images := r.toasts[id].images + [path])]) else r
  }

  /** Appends a button to toast `id`. */
  function AddButton(r: Registry, id: int, caption: string, tag: string): Registry
  {
    if id in r.toasts
    then r.(toasts := r.toasts[id := r.toasts[id].(buttons := r.toasts[id].buttons + [Button(caption, tag)])])
    else r
  }

  /** Appends a text box to toast `id`. */
  function AddInput(r: Registry, id: int, inputId: string, placeholder: string, defaultValue: string): Registry
  {
    if id in r.toasts
    then r.(toasts := r.toasts[id := r.toasts[id].(inputs := r.toasts[id].inputs + [TextInput(inputId, placeholder, defaultValue)])])
    else r
  }

  /** Binds (or rebinds) the activation handler of toast `id`. */
  function SetCallback(r: Registry, id: int, cb: CallbackKind): Registry
  {
    if id in r.toasts then r.(toasts := r.toasts[id := r.toasts[id].(callback := cb)]) else r
  }

  /** Hands toast `id` to the surface to be shown. */
  function Display(r: Registry, id: int): Registry
  {
    if id in r.toasts then r.(surface := r.surface + [Show(id, r.toasts[id])]) else r
  }

  /** Removes toast `id` from the table and from the surface. */
  function Destroy(r: Registry, id: int): Registry
  {
    if id in r.toasts then r.(toasts := r.toasts - {id}, surface := r.surface + [Remove(id, r.toasts[id])]) else r
  }

  /** One call on a ToastManager. */
  datatype Op =
    | CreateOp
    | AddTextOp(id: int, lines: seq<string>)
    | AddImageOp(id: int, path: string)
    | AddButtonOp(id: int, caption: string, tag: string)
    | AddInputOp(id: int, inputId: string, placeholder: string, defaultValue: string)
    | SetCallbackOp(id: int, cb: CallbackKind)
    | DisplayOp(id: int)
    | DestroyOp(id: int)

  function Apply(r: Registry, op: Op): Registry
  {
    match op
    case CreateOp => Create(r)
    case AddTextOp(id, lines) => AddText(r, id, lines)
    case AddImageOp(id, path) => AddImage(r, id, path)
    case AddButtonOp(id, caption, tag) => AddButton(r, id, caption, tag)
    case AddInputOp(id, inputId, placeholder, dv) => AddInput(r, id, inputId, placeholder, dv)
    case SetCallbackOp(id, cb) => SetCallback(r, id, cb)
    case DisplayOp(id) => Display(r, id)
    case DestroyOp(id) => Destroy(r, id)
  }

  /** The registry after a sequence of calls. */
  function Run(r: Registry, ops: seq<Op>): Registry
    decreases |ops|
  {
    if ops == [] then r else Run(Apply(r, ops[0]), ops[1..])
  }

  /** The ids the CreateOp calls of a sequence return, in order. */
  function Issued(r: Registry, ops: seq<Op>): seq<int>
    decreases |ops|
  {
    if ops == [] then []
    else (if ops[0].CreateOp? then [r.nextId] else []) + Issued(Apply(r, ops[0]), ops[1..])
  }

  /** Create hands out an id that is not in the table, registers an empty toast there and touches nothing else. */
  lemma CreateIsFresh(r: Registry)
    requires WellFormed(r)
    ensures r.nextId !in r.toasts
    ensures var r' := Create(r);
      WellFormed(r') && r'.nextId == r.nextId + 1 && r'.toasts[r.nextId] == EmptyToast
      && r'.surface == r.surface
      && forall k :: k != r.nextId ==> (k in r'.toasts <==> k in r.toasts) && (k in r.toasts ==> r'.toasts[k] == r.toasts[k])
  {
  }

  /** Every call keeps the registry well formed. */
  lemma ApplyPreservesWellFormed(r: Registry, op: Op)
    requires WellFormed(r)
    ensures WellFormed(Apply(r, op))
  {
  }

  /** A call that names an id not in the table changes nothing, not even the surface log. */
  lemma MissingIdIsNoop(r: Registry, op: Op)
    requires !op.CreateOp? && op.id !in r.toasts
    ensures Apply(r, op) == r
  {
  }

  /** Setting the text twice keeps only the second list. */
  lemma AddTextReplaces(r: Registry, id: int, first: seq<string>, second: seq<string>)
    ensures AddText(AddText(r, id, first), id, second) == AddText(r, id, second)
  {
    if id in r.toasts {
      assert AddText(AddText(r, id, first), id, second).toasts == AddText(r, id, second).toasts;
    }
  }

  /** Setting the callback twice keeps only the second one. */
  lemma SetCallbackOverwrites(r: Registry, id: int, first: CallbackKind, second: CallbackKind)
    ensures SetCallback(SetCallback(r, id, first), id, second) == SetCallback(r, id, second)
  {
    if id in r.toasts {
      assert SetCallback(SetCallback(r, id, first), id, second).toasts == SetCallback(r, id, second).toasts;
    }
  }

  /** The calls that add `buttons` to toast `id`, one by one. */
  function ButtonOps(id: int, buttons: seq<Button>): (ops: seq<Op>)
    ensures |ops| == |buttons|
  {
    if buttons == [] then [] else [AddButtonOp(id, buttons[0].caption, buttons[0].tag)] + ButtonOps(id, buttons[1..])
  }

  /**
   * Adding buttons one by one appends them in order after the earlier ones,
   * leaves every other part of the toast and every other toast alone, and
   * shows nothing.
   */
  lemma {:induction false} AddButtonsInOrder(r: Registry, id: int, buttons: seq<Button>)
    requires id in r.toasts
    ensures var r' := Run(r, ButtonOps(id, buttons));
      r'.toasts.Keys == r.toasts.Keys && r'.nextId == r.nextId && r'.surface == r.surface
      && r'.toasts[id] == r.toasts[id].(buttons := r.toasts[id].buttons + buttons)
      && forall k :: k in r.toasts && k != id ==> r'.toasts[k] == r.toasts[k]
    decreases |buttons|
  {
    var ops := ButtonOps(id, buttons);
    if buttons == [] {
      assert r.toasts[id].buttons + buttons == r.toasts[id].buttons;
    } else {
      var b := buttons[0];
      assert ops[0] == AddButtonOp(id, b.caption, b.tag);
      assert ops[1..] == ButtonOps(id, buttons[1..]);
      var r1 := AddButton(r, id, b.caption, b.tag);
      assert Run(r, ops) == Run(r1, ButtonOps(id, buttons[1..]));
      assert r1.toasts[id] == r.toasts[id].(buttons := r.toasts[id].buttons + [b]);
      assert r1.toasts.Keys == r.toasts.Keys;
      AddButtonsInOrder(r1, id, buttons[1..]);
      assert r.toasts[id].buttons + [b] + buttons[1..] == r.toasts[id].buttons + buttons;
    }
  }

  /** Adding a text box keeps the earlier ones, in order, and puts the new one last. */
  lemma AddInputAppends(r: Registry, id: int, inputId: string, placeholder: string, defaultValue: string)
    requires id in r.toasts
    ensures var before := r.toasts[id].inputs;
      var after := AddInput(r, id, inputId, placeholder, defaultValue).toasts[id].inputs;
      |after| == |before| + 1 && after[..|before|] == before
      && after[|before|] == TextInput(inputId, placeholder, defaultValue)
  {
  }

  /** Adding an image keeps the earlier ones, in order, and puts the new one last. */
  lemma AddImageAppends(r: Registry, id: int, path: string)
    requires id in r.toasts
    ensures var before := r.toasts[id].images;
      var after := AddImage(r, id, path).toasts[id].images;
      |after| == |before| + 1 && after[..|before|] == before && after[|before|] == path
  {
  }

  /** Displaying changes only the surface log, by one Show of the toast as it stands. */
  lemma DisplayKeepsTable(r: Registry, id: int)
    requires id in r.toasts
    ensures Display(r, id).toasts == r.toasts && Display(r, id).nextId == r.nextId
    ensures Display(r, id).surface == r.surface + [Show(id, r.toasts[id])]
  {
  }

  /** After Destroy the id is gone, every other entry is as it was, and the counter does not move back. */
  lemma DestroyRemovesOnlyId(r: Registry, id: int)
    ensures var r' := Destroy(r, id);
      id !in r'.toasts && r'.nextId == r.nextId
      && forall k :: k != id ==> (k in r'.toasts <==> k in r.toasts) && (k in r.toasts ==> r'.toasts[k] == r.toasts[k])
  {
  }

  /**
   * Over any sequence of calls, destroys included, the ids handed out are
   * strictly increasing, never in the table beforehand, and below the final
   * counter: an id is never handed out twice.
   */
  lemma {:induction false} IssuedIdsIncrease(r: Registry, ops: seq<Op>)
    requires WellFormed(r)
    ensures WellFormed(Run(r, ops)) && r.nextId <= Run(r, ops).nextId
    ensures forall i, j :: 0 <= i < j < |Issued(r, ops)| ==> Issued(r, ops)[i] < Issued(r, ops)[j]
    ensures forall i :: 0 <= i < |Issued(r, ops)| ==>
              r.nextId <= Issued(r, ops)[i] < Run(r, ops).nextId && Issued(r, ops)[i] !in r.toasts
    decreases |ops|
  {
    if ops != [] {
      var r1 := Apply(r, ops[0]);
      ApplyPreservesWellFormed(r, ops[0]);
      IssuedIdsIncrease(r1, ops[1..]);
      var head: seq<int> := if ops[0].CreateOp? then [r.nextId] else [];
      var ids1 := Issued(r1, ops[1..]);
      var ids := head + ids1;
      assert Run(r, ops) == Run(r1, ops[1..]);
      assert Issued(r, ops) == ids;
      assert r1.nextId == r.nextId + |head|;
      forall i | 0 <= i < |ids|
        ensures r.nextId <= ids[i] < Run(r, ops).nextId && ids[i] !in r.toasts
      {
        if i >= |head| {
          assert ids[i] == ids1[i - |head|];
        }
      }
      forall i, j | 0 <= i < j < |ids|
        ensures ids[i] < ids[j]
      {
        assert ids[j] == ids1[j - |head|];
        if i >= |head| {
          assert ids[i] == ids1[i - |head|];
        }
      }
    }
  }

  /** A toast built and shown in one go: registered under nextId, counter advanced, one Show. */
  function Published(r: Registry, t: Toast): Registry
  {
    Registry(r.toasts[r.nextId := t], r.nextId + 1, r.surface + [Show(r.nextId, t)])
  }

  /** The object a manager keeps: the table, the counter, and the calls made to the surface. */
  class ToastManager {
    const appName: string
    var toasts: map<int, Toast>
    var nextId: int
    ghost var surface: seq<SurfaceCall>

    ghost function Model(): Registry
      reads this
    {
      Registry(toasts, nextId, surface)
    }

    ghost predicate Valid()
      reads this
    {
      WellFormed(Model())
    }

    constructor (appName: string)
      ensures this.appName == appName
      ensures Model() == Fresh() && Valid()
    {
      this.appName := appName;
      toasts := map[];
      nextId := 1;
      surface := [];
    }

    method CreateNewToast() returns (id: int)
      requires Valid()
      modifies this
      ensures Valid()
      ensures id == old(nextId) && id !in old(toasts)
      ensures Model() == Create(old(Model()))
    {
      id := nextId;
      nextId := nextId + 1;
      toasts := toasts[id := EmptyToast];
    }

    method AddTextToToast(id: int, lines: seq<string>)
      requires Valid()
      modifies this
      ensures Valid()
      ensures Model() == AddText(old(Model()), id, lines)
    {
      if id in toasts {
        toasts := toasts[id := toasts[id].(text := lines)];
      }
    }

    method AddImageToToast(id: int, path: string)
      requires Valid()
      modifies this
      ensures Valid()
      ensures Model() == AddImage(old(Model()), id, path)
    {
      if id in toasts {
        toasts := toasts[id := toasts[id].(images := toasts[id].images + [path])];
      }
    }

    method AddButtonToToast(id: int, caption: string, tag: string)
      requires Valid()
      modifies this
      ensures Valid()
      ensures Model() == AddButton(old(Model()), id, caption, tag)
    {
      if id in toasts {
        toasts := toasts[id := toasts[id].(buttons := toasts[id].buttons + [Button(caption, tag)])];
      }
    }

    method AddInputToToast(id: int, inputId: string, placeholder: string, defaultValue: string)
      requires Valid()
      modifies this
      ensures Valid()
      ensures Model() == AddInput(old(Model()), id, inputId, placeholder, defaultValue)
    {
      if id in toasts {
        var field := TextInput(inputId, placeholder, defaultValue);
        toasts := toasts[id := toasts[id].(inputs := toasts[id].inputs + [field])];
      }
    }

    method SetToastActivatedCallback(id: int, cb: CallbackKind)
      requires Valid()
      modifies this
      ensures Valid()
      ensures Model() == SetCallback(old(Model()), id, cb)
    {
      if id in toasts {
        toasts := toasts[id := toasts[id].(callback := cb)];
      }
    }

    method DisplayToast(id: int)
      requires Valid()
      modifies this
      ensures Valid()
      ensures Model() == Display(old(Model()), id)
    {
      if id in toasts {
        surface := surface + [Show(id, toasts[id])];
      }
    }

    method DestroyToast(id: int)
      requires Valid()
      modifies this
      ensures Valid()
      ensures Model() == Destroy(old(Model()), id)
    {
      if id in toasts {
        var toast := toasts[id];
        toasts := toasts - {id};
        surface := surface + [Remove(id, toast)];
      }
    }
  }
}
