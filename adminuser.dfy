/** The `ca_certificate_issuer` transform of the admin user module
    (plugins/modules/nios_adminuser.py). */
module AdminUser {
  import opened Outcomes
  import opened PyValues
  import opened Wapi

  datatype CacertError =
    | SerialRequired                          // the serial number is unset
    | CertificateNotFound(issuer: Option<string>)   // no certificate matches the issuer and serial

  /** The serial number parameter is set and non-empty. */
  predicate HasSerial(serial: Option<string>)
  {
    serial.Some? && serial.value != ""
  }

  /** The certificate lookup by issuer and serial number. */
  function CacertQuery(issuer: Option<string>, serial: Option<string>): (q: Query)
    ensures q.objType == "cacertificate"
    ensures q.fields.Keys == {"issuer", "serial"}
    ensures q.fields["issuer"] == OptStr(issuer) && q.fields["serial"] == OptStr(serial)
  {
    Query("cacertificate", map["issuer" := OptStr(issuer), "serial" := OptStr(serial)])
  }

  /** `cacert_transform`: a missing serial number fails; otherwise the first
      matching certificate's reference, or a failure naming the issuer. */
  function CacertTransform(issuer: Option<string>, serial: Option<string>, lookup: GetObject): (r: Result<string, CacertError>)
    ensures !HasSerial(serial) ==> r == Fail(SerialRequired)
    ensures HasSerial(serial) ==> (r.Ok? <==> Found(lookup(CacertQuery(issuer, serial))))
    ensures HasSerial(serial) && r.Fail? ==> r.error == CertificateNotFound(issuer)
    ensures r.Ok? ==> r.value == FirstRef(lookup(CacertQuery(issuer, serial)))
  {
    if !HasSerial(serial) then Fail(SerialRequired)
    else
      var cacert := lookup(CacertQuery(issuer, serial));
      if Found(cacert) then Ok(FirstRef(cacert)) else Fail(CertificateNotFound(issuer))
  }

  /** The serial number is checked before any lookup: without one, every WAPI
      answers the same. */
  lemma SerialCheckedBeforeLookup(issuer: Option<string>, serial: Option<string>, lookup1: GetObject, lookup2: GetObject)
    requires !HasSerial(serial)
    ensures CacertTransform(issuer, serial, lookup1) == CacertTransform(issuer, serial, lookup2)
  {
  }
}
