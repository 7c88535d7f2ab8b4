/**
  `useFormModal`: the state of a create/edit modal form: whether it is open,
  the item being edited (none for a new one) and the form's data. The
  transitions are pure functions on that state; the hook object applies
  them to its fields.
*/
module FormModal {
  import opened Wrappers

  datatype ModalState<T, F> = ModalState(isOpen: bool, editingItem: Option<T>, formData: F)

  /** The state on mount: closed, nothing being edited, the initial form data. */
  function Initial<T, F>(initialFormData: F): (s: ModalState<T, F>)
    ensures !s.isOpen && s.editingItem.None? && s.formData == initialFormData
  {
    ModalState(false, None, initialFormData)
  }

  /** `resetForm`: initial form data and no item; the open flag is untouched. */
  function Reset<T, F>(s: ModalState<T, F>, initialFormData: F): (r: ModalState<T, F>)
    ensures r.isOpen == s.isOpen && r.editingItem.None? && r.formData == initialFormData
  {
    s.(formData := initialFormData, editingItem := None)
  }

  /** `handleEdit(item, map)`: edit `item`, with the form filled from it, and open. */
  function Edit<T, F>(s: ModalState<T, F>, item: T, toFormData: T -> F): (r: ModalState<T, F>)
    ensures r.isOpen && r.editingItem == Some(item) && r.formData == toFormData(item)
  {
    s.(editingItem := Some(item)).(formData := toFormData(item)).(isOpen := true)
  }

  /** `handleOpenChange(open)`: set the open flag, and reset the form when closing. */
  function OpenChange<T, F>(s: ModalState<T, F>, open: bool, initialFormData: F): (r: ModalState<T, F>)
    ensures r.isOpen == open
    ensures !open ==> r == Initial(initialFormData)
    ensures open ==> r.editingItem == s.editingItem && r.formData == s.formData
  {
    var toggled := s.(isOpen := open);
    if !open then Reset(toggled, initialFormData) else toggled
  }

  /** Resetting twice is resetting once. */
  lemma ResetIdempotent<T, F>(s: ModalState<T, F>, initialFormData: F)
    ensures Reset(Reset(s, initialFormData), initialFormData) == Reset(s, initialFormData)
  {
  }

  /** Closing after an edit, whatever was edited, brings the form back to its state on mount. */
  lemma EditThenCloseForgets<T, F>(s: ModalState<T, F>, item: T, toFormData: T -> F, initialFormData: F)
    ensures OpenChange(Edit(s, item, toFormData), false, initialFormData) == Initial(initialFormData)
  {
  }

  /** Opening an edit and then re-opening keeps the item and its data. */
  lemma ReopenKeepsEdit<T, F>(s: ModalState<T, F>, item: T, toFormData: T -> F, initialFormData: F)
    ensures OpenChange(Edit(s, item, toFormData), true, initialFormData) == Edit(s, item, toFormData)
  {
  }

  /** The hook instance: its three state fields and the form data it resets to. */
  class FormModalHook<T, F> {
    var isOpen: bool
    var editingItem: Option<T>
    var formData: F
    const initialFormData: F

    function State(): ModalState<T, F>
      reads this
    {
      ModalState(isOpen, editingItem, formData)
    }

    constructor (initialFormData: F)
      ensures this.initialFormData == initialFormData
      ensures State() == Initial(initialFormData)
    {
      this.initialFormData := initialFormData;
      isOpen := false;
      editingItem := None;
      formData := initialFormData;
    }

    /** `setIsOpen` */
    method SetIsOpen(open: bool)
      modifies this
      ensures State() == old(State()).(isOpen := open)
    {
      isOpen := open;
    }

    /** `setFormData` with a new value. */
    method SetFormData(data: F)
      modifies this
      ensures State() == old(State()).(formData := data)
    {
      formData := data;
    }

    method ResetForm()
      modifies this
      ensures State() == Reset(old(State()), initialFormData)
    {
      formData := initialFormData;
      editingItem := None;
    }

    method HandleEdit(item: T, toFormData: T -> F)
      modifies this
      ensures State() == Edit(old(State()), item, toFormData)
    {
      editingItem := Some(item);
      formData := toFormData(item);
      isOpen := true;
    }

    method HandleOpenChange(open: bool)
      modifies this
      ensures State() == OpenChange(old(State()), open, initialFormData)
    {
      isOpen := open;
      if !open {
        ResetForm();
      }
    }
  }
}
