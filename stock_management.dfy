/** src/app/features/stock/stock-management/stock-management.component.ts:
    the product form's state machine, gated by the permission computed when
    the component is built. Each action returns the service call it issues;
    the replies arrive later, through `OnDeleted` and `OnSaved`. */
module StockScreen {
  import opened Models
  import opened Auth

  /** The product-service request an action issues, if any. */
  datatype ServiceCall = NoCall | AddCall | UpdateCall(id: Id) | DeleteCall(id: Id)

  /** The write permission the component computes: admin or manager. */
  function WritePermission(s: Session): (allowed: bool)
    ensures allowed <==>
      IsLoggedIn(s) && s.currentUser.Some? && s.currentUser.value.role in {AdminRole, ManagerRole}
  {
    HasRole(s, AnyRole([AdminRole, ManagerRole]))
  }

  class StockManagementComponent {
    /** Computed once in the constructor and never reassigned. */
    const canPerformWriteActions: bool
    const userRole: Option<Role>
    var isEditing: bool
    var currentProductId: Option<Id>
    var showForm: bool

    /** The form is open whenever a product is being edited, a product is
        being edited exactly when an id is held, and the form never opens
        without write permission. */
    ghost predicate Valid()
      reads this
    {
      && (isEditing <==> currentProductId.Some?)
      && (isEditing ==> showForm)
      && (showForm ==> canPerformWriteActions)
    }

    constructor (session: Session)
      ensures Valid()
      ensures canPerformWriteActions == WritePermission(session)
      ensures userRole == CurrentRole(session)
      ensures !isEditing && currentProductId == None && !showForm
    {
      userRole := CurrentRole(session);
      canPerformWriteActions := WritePermission(session);
      isEditing := false;
      currentProductId := None;
      showForm := false;
    }

    /** `openNewProductForm`. */
    method OpenNewProductForm()
      requires Valid()
      modifies this
      ensures Valid()
      ensures canPerformWriteActions ==> !isEditing && currentProductId == None && showForm
      ensures !canPerformWriteActions ==> unchanged(this)
    {
      if !canPerformWriteActions {
        return;
      }
      isEditing := false;
      currentProductId := None;
      showForm := true;
    }

    /** `openEditProductForm(product)`. */
    method OpenEditProductForm(product: Product)
      requires Valid()
      modifies this
      ensures Valid()
      ensures canPerformWriteActions ==> isEditing && currentProductId == Some(product.id) && showForm
      ensures !canPerformWriteActions ==> unchanged(this)
    {
      if !canPerformWriteActions {
        return;
      }
      isEditing := true;
      currentProductId := Some(product.id);
      showForm := true;
    }

    /** `deleteProduct(id)`: the request goes out only with permission and
        after the user confirms (`confirmed` is the answer to the dialog). */
    method DeleteProduct(id: Id, confirmed: bool) returns (call: ServiceCall)
      ensures call == (if canPerformWriteActions && confirmed then DeleteCall(id) else NoCall)
      ensures call != NoCall ==> canPerformWriteActions
    {
      if !canPerformWriteActions {
        return NoCall;
      }
      call := if confirmed then DeleteCall(id) else NoCall;
    }

    /** The success callback of a delete: deleting the product being edited
        closes the form. */
    method OnDeleted(id: Id)
      requires Valid()
      modifies this
      ensures Valid()
      ensures old(currentProductId) == Some(id) ==> !isEditing && currentProductId == None && !showForm
      ensures old(currentProductId) != Some(id) ==> unchanged(this)
    {
      if currentProductId == Some(id) {
        CancelAndCloseForm();
      }
    }

    /** `onSubmit`: with permission and a valid form, an update of the held
        id when editing, an add otherwise. In every state the screen can
        reach, that means: an update exactly when editing, an add exactly
        when no id is held. */
    method OnSubmit(formValid: bool) returns (call: ServiceCall)
      requires Valid()
      ensures !canPerformWriteActions || !formValid ==> call == NoCall
      ensures canPerformWriteActions && formValid ==>
        call == (if isEditing && currentProductId.Some? then UpdateCall(currentProductId.value) else AddCall)
      ensures canPerformWriteActions && formValid ==>
        (call.UpdateCall? <==> isEditing) && (call.AddCall? <==> currentProductId.None?)
    {
      if !canPerformWriteActions {
        return NoCall;
      }
      if !formValid {
        return NoCall;
      }
      if isEditing && currentProductId.Some? {
        call := UpdateCall(currentProductId.value);
      } else {
        call := AddCall;
      }
    }

    /** The success callback of an add or update closes the form. */
    method OnSaved()
      requires Valid()
      modifies this
      ensures Valid()
      ensures !isEditing && currentProductId == None && !showForm
    {
      CancelAndCloseForm();
    }

    /** `cancelAndCloseForm`. */
    method CancelAndCloseForm()
      requires Valid()
      modifies this
      ensures Valid()
      ensures !isEditing && currentProductId == None && !showForm
    {
      isEditing := false;
      currentProductId := None;
      showForm := false;
    }
  }

  /** A screen built for a plain user never opens the form and never calls
      the service. */
  method ReadOnlyScenario(session: Session, p: Product)
    requires session.currentUser.Some? && session.currentUser.value.role == UserRole
  {
    var screen := new StockManagementComponent(session);
    assert !screen.canPerformWriteActions;
    screen.OpenEditProductForm(p);
    assert !screen.showForm && !screen.isEditing;
    var call := screen.OnSubmit(true);
    assert call == NoCall;
    call := screen.DeleteProduct(p.id, true);
    assert call == NoCall;
  }
}
