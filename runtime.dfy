/**
 * Everything the payment, credential and check-in services take from their
 * surroundings, gathered into one value: the environment variables, the
 * cryptographic primitives, the random bytes each call draws, date parsing
 * and the mail transport's verdict on each message.
 */
module Runtime {
  import opened Wrappers
  import opened Js
  import opened Common
  import opened Store
  import opened QrUtils

  datatype Runtime = Runtime(
    vars: Vars,
    sign: Signer,
    verify: Verifier,
    sha256: Digest,
    jtiBytes: Bytes16,             // crypto.randomBytes(16) for a new QR record
    referenceBytes: Bytes4,        // crypto.randomBytes(4) for a new payment reference
    parseDate: JsValue -> Option<int>,  // new Date(value).getTime(), None for an Invalid Date
    mailError: Mail -> Option<string>)  // the error the transport throws for a mail, if any
}
