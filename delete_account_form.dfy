/** src/components/DeleteAccountForm.js: deletes the account behind the bearer token after
    two confirmations. The React state is the fields of a class; the confirmation answers and
    the server's reply are parameters of the handler. */
module DeleteAccountForm {
  import opened JsStrings
  import opened ClientApi

  const NeedBearer: string := "Please enter Bearer token first"
  const Deleting: string := "Deleting account..."
  const Deleted: string := "Account deleted successfully!"
  const DeleteFailed: string := "Failed to delete account"

  /** The arguments of `api.deleteAccount`. */
  datatype DeleteRequest = DeleteRequest(bearer: string, reason: string)

  class DeleteAccountForm {
    var reason: string
    var status: string

    constructor ()
      ensures reason == "" && status == ""
    {
      reason := "";
      status := "";
    }

    /** `deleteAccount`. Without a token only the status is set and no confirmation is
        shown. Each declined confirmation ends the handler with nothing changed; the request
        goes out only after both are accepted. A successful reply clears the page's token. */
    method DeleteAccount(bearerToken: string, firstConfirm: bool, secondConfirm: bool, reply: Call<Json>)
      returns (confirmationsShown: nat, sent: Option<DeleteRequest>, newToken: Option<string>)
      modifies this
      ensures bearerToken == "" ==> status == NeedBearer && confirmationsShown == 0
      ensures bearerToken != "" ==> confirmationsShown == if firstConfirm then 2 else 1
      ensures sent.Some? <==> bearerToken != "" && firstConfirm && secondConfirm
      ensures bearerToken != "" && !(firstConfirm && secondConfirm) ==> status == old(status)
      ensures sent.Some? ==> sent.value == DeleteRequest(bearerToken, reason)
      ensures sent.Some? && reply.Threw? ==> status == ErrorStatus(reply.message)
      ensures sent.Some? && reply.Returned? && reply.value.success ==> status == Deleted
      ensures sent.Some? && reply.Returned? && !reply.value.success ==> status == Or(reply.value.error, DeleteFailed)
      ensures newToken.Some? <==> sent.Some? && reply.Returned? && reply.value.success
      ensures newToken.Some? ==> newToken.value == ""
      ensures reason == old(reason)
    {
      newToken := None;
      if bearerToken == "" {
        status := NeedBearer;
        return 0, None, None;
      }
      if !firstConfirm {
        return 1, None, None;
      }
      confirmationsShown := 2;
      if !secondConfirm {
        return 2, None, None;
      }
      status := Deleting;
      sent := Some(DeleteRequest(bearerToken, reason));
      match reply {
        case Threw(m) =>
          status := ErrorStatus(m);
        case Returned(data) =>
          if data.success {
            status := Deleted;
            newToken := Some("");
          } else {
            status := Or(data.error, DeleteFailed);
          }
      }
    }

    /** The three-second timeout after a deletion: the reason and the status are cleared. */
    method ResetAfterDelete()
      modifies this
      ensures reason == "" && status == ""
    {
      reason := "";
      status := "";
    }
  }
}
