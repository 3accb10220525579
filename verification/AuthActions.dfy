/** The operations of a connection, and AuthPermissions with its HasPermission. */
module AuthActions {

  datatype AuthAction = Open | Upload | Download | Copy | Paste | Share | Unlisted(code: nat)

  datatype Permissions = Permissions(connect: bool, upload: bool, download: bool, copy: bool, paste: bool, share: bool) {
    predicate Has(action: AuthAction) {
      match action
      case Open => connect
      case Upload => upload
      case Download => download
      case Copy => copy
      case Paste => paste
      case Share => share
      case Unlisted(_) => false
    }
  }

  const NO_PERMISSIONS := Permissions(false, false, false, false, false, false)
}
