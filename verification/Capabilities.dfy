/** Tunnel phases, capability scopes, and the authorization matrix the handlers consult. */
module Capabilities {

  datatype TunnelStatus = Waiting | Connected | Transferring | Complete | Cancelled | Expired

  datatype Principal = PairingSecret | Desktop | Phone | EventTicket

  datatype Operation =
    | Claim
    | ReadSnapshot
    | Cancel
    | DeclareFile
    | UploadFile
    | DownloadFile
    | MintEventTicket
    | RedeemEventTicket

  /** The phase after claiming and before any end, in which files move. */
  predicate IsOpen(status: TunnelStatus) {
    status.Connected? || status.Transferring?
  }

  predicate Permits(status: TunnelStatus, principal: Principal, operation: Operation) {
    && !status.Cancelled? && !status.Expired?
    && match operation
       case Claim => status.Waiting? && principal.PairingSecret?
       case ReadSnapshot => principal.Desktop? || principal.Phone?
       case Cancel => !status.Complete? && principal.Desktop?
       case DeclareFile => IsOpen(status) && principal.Phone?
       case UploadFile => IsOpen(status) && principal.Phone?
       case DownloadFile => IsOpen(status) && principal.Desktop?
       case MintEventTicket => !status.Complete? && (principal.Desktop? || principal.Phone?)
       case RedeemEventTicket => !status.Complete? && principal.EventTicket?
  }

  predicate ProgressIsValid(sizeBytes: nat, bytesTransferred: nat) {
    bytesTransferred <= sizeBytes
  }
}
