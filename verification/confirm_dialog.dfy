/**
  The confirmation dialog: the `useConfirmDialog` hook, which keeps an action
  pending until the user confirms and then runs it, and the dialog
  component's own confirm handler. Actions are values of a type parameter; whether one
  throws is given by the caller.
*/
module ConfirmDialog {
  import opened Wrappers

  datatype DialogState<A> = DialogState(isOpen: bool, isLoading: bool, pendingAction: Option<A>)

  /** The hook on mount: closed, idle, nothing pending. */
  function Initial<A>(): (s: DialogState<A>)
    ensures !s.isOpen && !s.isLoading && s.pendingAction.None?
  {
    DialogState(false, false, None)
  }

  /** `confirm(action)`: keep the action and open, without running it. */
  function Confirmed<A>(s: DialogState<A>, action: A): (r: DialogState<A>)
    ensures r.isOpen && r.pendingAction == Some(action) && r.isLoading == s.isLoading
  {
    s.(pendingAction := Some(action)).(isOpen := true)
  }

  /** The state while the pending action runs: loading. */
  function Running<A>(s: DialogState<A>): (r: DialogState<A>)
    requires s.pendingAction.Some?
    ensures r.isLoading && r.isOpen == s.isOpen && r.pendingAction == s.pendingAction
  {
    s.(isLoading := true)
  }

  /** The `finally` block: idle, closed, nothing pending. */
  function Settled<A>(s: DialogState<A>): (r: DialogState<A>)
    ensures r == Initial()
  {
    s.(isLoading := false).(isOpen := false).(pendingAction := None)
  }

  /** `handleConfirm`'s effect on the state: nothing without a pending action, otherwise settled. */
  function AfterConfirm<A>(s: DialogState<A>): (r: DialogState<A>)
    ensures s.pendingAction.None? ==> r == s
    ensures s.pendingAction.Some? ==> r == Initial()
  {
    if s.pendingAction.Some? then Settled(Running(s)) else s
  }

  /** Confirming an action and then pressing confirm returns the hook to its state on mount. */
  lemma ConfirmRoundTrip<A>(s: DialogState<A>, action: A)
    ensures AfterConfirm(Confirmed(s, action)) == Initial()
  {
  }

  datatype Variant = Default | Destructive

  /** The dialog's texts, button variant and loading flag once the defaults are applied. */
  datatype DialogProps = DialogProps(title: string, message: string, confirmText: string, cancelText: string,
                                     variant: Variant, isLoading: bool)

  /** Each prop left out takes its default; a prop that is given is kept. */
  function WithDefaults(title: Option<string>, message: Option<string>, confirmText: Option<string>,
                        cancelText: Option<string>, variant: Option<Variant>, isLoading: Option<bool>): (p: DialogProps)
    ensures title.None? ==> p.title == "Confirmar ação"
    ensures message.None? ==> p.message == "Tem certeza que deseja continuar?"
    ensures confirmText.None? ==> p.confirmText == "Confirmar"
    ensures cancelText.None? ==> p.cancelText == "Cancelar"
    ensures variant.None? ==> p.variant == Destructive
    ensures isLoading.None? ==> !p.isLoading
    ensures title.Some? ==> p.title == title.value
    ensures message.Some? ==> p.message == message.value
    ensures confirmText.Some? ==> p.confirmText == confirmText.value
    ensures cancelText.Some? ==> p.cancelText == cancelText.value
    ensures variant.Some? ==> p.variant == variant.value
    ensures isLoading.Some? ==> p.isLoading == isLoading.value
  {
    DialogProps(title.GetOr("Confirmar ação"), message.GetOr("Tem certeza que deseja continuar?"),
                confirmText.GetOr("Confirmar"), cancelText.GetOr("Cancelar"),
                variant.GetOr(Destructive), isLoading.GetOr(false))
  }

  datatype ButtonVariant = Outline | Styled(variant: Variant)

  /** What a click on a footer button does: close the dialog, or run the component's confirm handler. */
  datatype ButtonAction = Close | RunConfirm

  datatype Button = Button(text: string, variant: ButtonVariant, onClick: ButtonAction, disabled: bool)

  /**
    The dialog footer: the outline cancel button, which closes the dialog, and
    the confirm button in the dialog's variant; both are disabled exactly
    while loading.
  */
  function Footer(p: DialogProps): (bs: seq<Button>)
    ensures |bs| == 2
    ensures bs[0].text == p.cancelText && bs[0].variant == Outline && bs[0].onClick == Close
    ensures bs[1].text == p.confirmText && bs[1].variant == Styled(p.variant) && bs[1].onClick == RunConfirm
    ensures forall b | b in bs :: b.disabled <==> p.isLoading
  {
    [Button(p.cancelText, Outline, Close, p.isLoading), Button(p.confirmText, Styled(p.variant), RunConfirm, p.isLoading)]
  }

  /**
    A dialog fed the hook's loading flag: while the pending action runs, neither
    button can be pressed again; once it settles, both can.
  */
  lemma FooterFollowsHook<A>(s: DialogState<A>, title: Option<string>, message: Option<string>, confirmText: Option<string>,
                             cancelText: Option<string>, variant: Option<Variant>)
    requires s.pendingAction.Some?
    ensures forall b | b in Footer(WithDefaults(title, message, confirmText, cancelText, variant, Some(Running(s).isLoading))) ::
              b.disabled
    ensures forall b | b in Footer(WithDefaults(title, message, confirmText, cancelText, variant, Some(AfterConfirm(s).isLoading))) ::
              !b.disabled
  {
  }

  /**
    The dialog component's `handleConfirm`: await `onConfirm`, then call
    `onOpenChange(false)`. The calls made to `onOpenChange`: one closing call
    when `onConfirm` completes, none when it throws.
  */
  function ComponentConfirm(onConfirmThrows: bool): (calls: seq<bool>)
    ensures onConfirmThrows <==> calls == []
    ensures !onConfirmThrows ==> calls == [false]
  {
    if onConfirmThrows then [] else [false]
  }

  /**
    The hook instance. `runs` records every action it started, with the
    loading flag at the moment it started.
  */
  class ConfirmDialogHook<A> {
    var isOpen: bool
    var isLoading: bool
    var pendingAction: Option<A>
    var runs: seq<(A, bool)>

    function State(): DialogState<A>
      reads this
    {
      DialogState(isOpen, isLoading, pendingAction)
    }

    constructor ()
      ensures State() == Initial() && runs == []
    {
      isOpen := false;
      isLoading := false;
      pendingAction := None;
      runs := [];
    }

    /** `setIsOpen` */
    method SetIsOpen(open: bool)
      modifies this
      ensures State() == old(State()).(isOpen := open) && runs == old(runs)
    {
      isOpen := open;
    }

    method Confirm(action: A)
      modifies this
      ensures State() == Confirmed(old(State()), action) && runs == old(runs)
    {
      pendingAction := Some(action);
      isOpen := true;
    }

    /**
      `handleConfirm`: with a pending action, set loading, run the action
      once, and whatever happens settle the state; the action's exception, if
      any, propagates (`threw`). Without one, nothing happens.
    */
    method HandleConfirm(throws: A -> bool) returns (threw: bool)
      modifies this
      ensures State() == AfterConfirm(old(State()))
      ensures old(pendingAction).None? ==> runs == old(runs) && !threw
      ensures old(pendingAction).Some? ==>
                runs == old(runs) + [(old(pendingAction).value, true)] && threw == throws(old(pendingAction).value)
    {
      threw := false;
      if pendingAction.Some? {
        var action := pendingAction.value;
        isLoading := true;
        runs := runs + [(action, isLoading)];
        threw := throws(action);
        isLoading := false;
        isOpen := false;
        pendingAction := None;
      }
    }
  }
}
