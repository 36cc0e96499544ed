/**
 * The permission classes of core/permissions.py and the two framework
 * permissions the views combine them with, as predicates over a request.
 *
 * A request carries its caller, its HTTP method and the view action it is
 * routed to. An unauthenticated caller is the framework's anonymous user: it
 * is not staff, has the empty user name and is not authenticated.
 */
module Permissions {

  /** The account that may only sign new users up (models.py SIGNUP_USER). */
  const SignupUser: string := "signup@example.com"

  /** The HTTP methods that only read (the framework's SAFE_METHODS). */
  const SafeMethods: seq<string> := ["GET", "HEAD", "OPTIONS"]

  /** The actions a non-staff caller may POST to (UserPermission). */
  const PostAllowedActions: seq<string> := ["send_link"]

  type UserId = nat

  datatype Caller =
    | Anonymous
    | Member(id: UserId, username: string, email: string, isStaff: bool)

  datatype Request = Request(caller: Caller, verb: string, action: string)

  predicate IsStaff(c: Caller)
  {
    c.Member? && c.isStaff
  }

  predicate IsAuthenticated(c: Caller)
  {
    c.Member?
  }

  function Username(c: Caller): string
  {
    if c.Member? then c.username else ""
  }

  /** The authenticated signup account: present, logged in, with the signup email. */
  predicate IsSignupAccount(c: Caller)
  {
    c.Member? && c.email == SignupUser
  }

  /** SignupPermission: staff, or the signup account's user name. */
  predicate SignupPermission(r: Request): (ok: bool)
    ensures ok <==> IsStaff(r.caller) || Username(r.caller) == SignupUser
    ensures r.caller.Anonymous? ==> !ok
  {
    if IsStaff(r.caller) then true
    else Username(r.caller) == SignupUser
  }

  /** UserPermission: staff always; others never by POST, except to `send_link`. */
  predicate UserPermission(r: Request): (ok: bool)
    ensures IsStaff(r.caller) ==> ok
    ensures !IsStaff(r.caller) ==> (!ok <==> r.verb == "POST" && r.action != "send_link")
  {
    if IsStaff(r.caller) then true
    else
      var actionAllowed := r.action !in PostAllowedActions;
      if r.verb == "POST" && actionAllowed then false else true
  }

  /** IsAdminOrReadonly: staff, or a method that only reads. */
  predicate IsAdminOrReadonly(r: Request): (ok: bool)
    ensures ok <==> IsStaff(r.caller) || r.verb == "GET" || r.verb == "HEAD" || r.verb == "OPTIONS"
  {
    if IsStaff(r.caller) || r.verb in SafeMethods then true else false
  }

  /** IsDefaultUser: the caller is present, authenticated and is the signup account. */
  predicate IsDefaultUser(r: Request): (ok: bool)
    ensures ok ==> IsAuthenticated(r.caller)
    ensures ok <==> IsSignupAccount(r.caller)
  {
    r.caller.Member? && IsAuthenticated(r.caller) && r.caller.email == SignupUser
  }

  /** IsNotDefaultUser: refuses exactly the requests IsDefaultUser accepts. */
  predicate IsNotDefaultUser(r: Request): (ok: bool)
    ensures ok <==> !IsDefaultUser(r)
    ensures r.caller.Anonymous? ==> ok
  {
    if r.caller.Member? && IsAuthenticated(r.caller) && r.caller.email == SignupUser then false
    else true
  }

  /** The framework's IsAdminUser: a staff caller. */
  predicate IsAdminUser(r: Request)
  {
    IsStaff(r.caller)
  }

  /** The framework's answer to a request's permission check: admitted, 401 or 403. */
  datatype Verdict = Admitted | NotAuthenticated | PermissionDenied

  /** The permission classes a view or an action can list. */
  datatype PermissionClass =
    | AllowAnyClass
    | IsAuthenticatedClass
    | IsAdminUserClass
    | SignupPermissionClass
    | UserPermissionClass
    | IsAdminOrReadonlyClass
    | IsDefaultUserClass
    | IsNotDefaultUserClass

  /** `has_permission` of one class. */
  predicate HasPermission(pc: PermissionClass, r: Request)
  {
    match pc
    case AllowAnyClass => true
    case IsAuthenticatedClass => IsAuthenticated(r.caller)
    case IsAdminUserClass => IsAdminUser(r)
    case SignupPermissionClass => SignupPermission(r)
    case UserPermissionClass => UserPermission(r)
    case IsAdminOrReadonlyClass => IsAdminOrReadonly(r)
    case IsDefaultUserClass => IsDefaultUser(r)
    case IsNotDefaultUserClass => IsNotDefaultUser(r)
  }

  /** A refused request: 401 for a caller without credentials, 403 for anyone else. */
  function Denial(c: Caller): Verdict
  {
    if c.Anonymous? then NotAuthenticated else PermissionDenied
  }

  /**
   * The framework's `check_permissions`: the classes are asked in order and
   * the first that refuses ends the request, so a request is admitted
   * exactly when every class admits it.
   */
  function CheckPermissions(classes: seq<PermissionClass>, r: Request): (v: Verdict)
    ensures v == Admitted <==> forall i :: 0 <= i < |classes| ==> HasPermission(classes[i], r)
    ensures v != Admitted ==> v == Denial(r.caller)
  {
    if classes == [] then Admitted
    else if !HasPermission(classes[0], r) then Denial(r.caller)
    else CheckPermissions(classes[1..], r)
  }

  /** `UserViewSet.permission_classes` (core/views.py). */
  const UserViewClasses: seq<PermissionClass> := [IsAuthenticatedClass, IsNotDefaultUserClass, UserPermissionClass]

  /** The classes of the `signup` action. */
  const SignupActionClasses: seq<PermissionClass> := [SignupPermissionClass]

  /** `TransferViewSet.permission_classes`. */
  const TransferViewClasses: seq<PermissionClass> := [IsAuthenticatedClass, IsNotDefaultUserClass, IsAdminOrReadonlyClass]

  /** `ObtainAuthToken.permission_classes`: the login endpoint. */
  const TokenViewClasses: seq<PermissionClass> := [IsDefaultUserClass]

  /** The classes of the `sell` and `buy` actions. */
  const TradeActionClasses: seq<PermissionClass> := [IsNotDefaultUserClass, IsAuthenticatedClass]

  /** The classes of the staff-only actions (`admin`, `generate`, `move`). */
  const StaffActionClasses: seq<PermissionClass> := [IsAdminUserClass]

  /**
   * The user views: no credentials is 401; the signup account is refused
   * everything (403); staff may do anything; any other user may read and
   * update, and the only action they may POST to is `send_link`.
   */
  lemma UserViewGate(r: Request)
    ensures var v := CheckPermissions(UserViewClasses, r);
      && (r.caller.Anonymous? ==> v == NotAuthenticated)
      && (IsSignupAccount(r.caller) ==> v == PermissionDenied)
      && (IsStaff(r.caller) && !IsSignupAccount(r.caller) ==> v == Admitted)
      && (r.caller.Member? && !IsStaff(r.caller) && !IsSignupAccount(r.caller) ==>
            (v == Admitted <==> r.verb != "POST" || r.action == "send_link"))
  {
    var v := CheckPermissions(UserViewClasses, r);
    assert (HasPermission(UserViewClasses[0], r) && HasPermission(UserViewClasses[1], r) && HasPermission(UserViewClasses[2], r))
      ==> v == Admitted;
  }

  /**
   * The `signup` action: no credentials is 401, staff and the signup account
   * are admitted, and any other user is refused with 403.
   */
  lemma SignupGate(r: Request)
    ensures var v := CheckPermissions(SignupActionClasses, r);
      && (r.caller.Anonymous? ==> v == NotAuthenticated)
      && (r.caller.Member? ==> (v == Admitted <==> r.caller.isStaff || r.caller.username == SignupUser))
      && (r.caller.Member? && v != Admitted ==> v == PermissionDenied)
  {
  }

  /**
   * The transfer views: no credentials is 401; the signup account is refused
   * (403) even to read; any other user may read (GET, HEAD, OPTIONS) and only
   * staff may create, update or delete (POST, PUT, PATCH, DELETE are 403).
   */
  lemma TransferViewGate(r: Request)
    ensures var v := CheckPermissions(TransferViewClasses, r);
      && (r.caller.Anonymous? ==> v == NotAuthenticated)
      && (IsSignupAccount(r.caller) ==> v == PermissionDenied)
      && (r.caller.Member? && !IsSignupAccount(r.caller) ==>
            (v == Admitted <==> IsStaff(r.caller) || r.verb in ["GET", "HEAD", "OPTIONS"]))
      && (r.caller.Member? && !IsStaff(r.caller) && r.verb in ["POST", "PUT", "PATCH", "DELETE"] ==>
            v == PermissionDenied)
  {
    var v := CheckPermissions(TransferViewClasses, r);
    assert (HasPermission(TransferViewClasses[0], r) && HasPermission(TransferViewClasses[1], r) && HasPermission(TransferViewClasses[2], r))
      ==> v == Admitted;
  }

  /**
   * The login endpoint: only the signup account may obtain a token; no
   * credentials is 401 and every other user, staff included, gets 403.
   */
  lemma TokenViewGate(r: Request)
    ensures var v := CheckPermissions(TokenViewClasses, r);
      && (r.caller.Anonymous? ==> v == NotAuthenticated)
      && (r.caller.Member? ==> (v == Admitted <==> r.caller.email == SignupUser))
      && (r.caller.Member? && v != Admitted ==> v == PermissionDenied)
  {
  }

  /**
   * The signup account, whose user name is its email address (as every account
   * the signup view creates), may sign users up and obtain a token, and no
   * view guarded by IsNotDefaultUser admits it.
   */
  lemma SignupAccountConfined(r: Request)
    requires r.caller.Member? && !r.caller.isStaff
    requires r.caller.username == r.caller.email == SignupUser
    ensures SignupPermission(r) && IsDefaultUser(r)
    ensures !IsNotDefaultUser(r)
  {
  }
}
