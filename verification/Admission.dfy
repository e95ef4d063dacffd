/** The two validators of a VpnGw: the webhook collects every complaint, the reconciler stops at the first. */
module Admission {
  import opened Api
  import opened GatewayTypes

  /** One requirement on a VpnGw specification. */
  datatype Rule =
    | NeedsCPU | NeedsMemory | NeedsOneVpn
    | NeedsSslVpnSecret | NeedsDhSecret | NeedsCipher | NeedsProto | NeedsSubnetCidr | ProtoIsUDPOrTCP
    | NeedsSslVpnImage
    | NeedsIPSecVpnImage

  predicate Breaks(spec: VpnGwSpec, rule: Rule) {
    match rule
    case NeedsCPU => spec.cpu == ""
    case NeedsMemory => spec.memory == ""
    case NeedsOneVpn => !spec.enableSslVpn && !spec.enableIPSecVpn
    case NeedsSslVpnSecret => spec.enableSslVpn && spec.sslVpnSecret == ""
    case NeedsDhSecret => spec.enableSslVpn && spec.dhSecret == ""
    case NeedsCipher => spec.enableSslVpn && spec.sslVpnCipher == ""
    case NeedsProto => spec.enableSslVpn && spec.sslVpnProto == ""
    case NeedsSubnetCidr => spec.enableSslVpn && spec.sslVpnSubnetCidr == ""
    case ProtoIsUDPOrTCP => spec.enableSslVpn && spec.sslVpnProto != "udp" && spec.sslVpnProto != "tcp"
    case NeedsSslVpnImage => spec.enableSslVpn && spec.sslVpnImage == ""
    case NeedsIPSecVpnImage => spec.enableIPSecVpn && spec.ipsecVpnImage == ""
  }

  ghost predicate Admissible(spec: VpnGwSpec) {
    forall rule: Rule :: !Breaks(spec, rule)
  }

  /** validateVpnGw of the reconciler: the first broken rule, in the order it looks. */
  function FirstBroken(spec: VpnGwSpec): (broken: Option<Rule>)
    ensures broken.Some? ==> Breaks(spec, broken.value)
    ensures broken.None? ==> Admissible(spec)
  {
    if spec.cpu == "" then Some(NeedsCPU)
    else if spec.memory == "" then Some(NeedsMemory)
    else if !spec.enableSslVpn && !spec.enableIPSecVpn then Some(NeedsOneVpn)
    else if spec.enableSslVpn && spec.sslVpnSecret == "" then Some(NeedsSslVpnSecret)
    else if spec.enableSslVpn && spec.dhSecret == "" then Some(NeedsDhSecret)
    else if spec.enableSslVpn && spec.sslVpnCipher == "" then Some(NeedsCipher)
    else if spec.enableSslVpn && spec.sslVpnProto == "" then Some(NeedsProto)
    else if spec.enableSslVpn && spec.sslVpnSubnetCidr == "" then Some(NeedsSubnetCidr)
    else if spec.enableSslVpn && spec.sslVpnProto != "udp" && spec.sslVpnProto != "tcp" then Some(ProtoIsUDPOrTCP)
    else if spec.enableSslVpn && spec.sslVpnImage == "" then Some(NeedsSslVpnImage)
    else if spec.enableIPSecVpn && spec.ipsecVpnImage == "" then Some(NeedsIPSecVpnImage)
    else None
  }

  /** A complaint of the webhook: the field it names. */
  datatype FieldError =
    | CPU | EnableSslVpn | DhSecretField | SslVpnSecretField | SslVpnCipherField | SslVpnProtoField
    | SslVpnSubnetCidrField | SslVpnImageField | IPSecVpnImageField | KeepalivedField | IPSecSecretField

  /** One check of the webhook. */
  method Complain(allErrs: seq<FieldError>, broken: bool, f: FieldError) returns (errs: seq<FieldError>)
    ensures forall g :: g in errs <==> g in allErrs || (broken && g == f)
    ensures errs == [] <==> allErrs == [] && !broken
  {
    errs := allErrs;
    if broken {
      errs := errs + [f];
    }
  }

  /** The broken rules that a complaint about a field reports; CPU and memory are reported together. */
  predicate Reports(spec: VpnGwSpec, f: FieldError) {
    match f
    case CPU => Breaks(spec, NeedsCPU) || Breaks(spec, NeedsMemory)
    case EnableSslVpn => Breaks(spec, NeedsOneVpn)
    case DhSecretField => Breaks(spec, NeedsDhSecret)
    case SslVpnSecretField => Breaks(spec, NeedsSslVpnSecret)
    case SslVpnCipherField => Breaks(spec, NeedsCipher)
    case SslVpnProtoField => Breaks(spec, NeedsProto) || Breaks(spec, ProtoIsUDPOrTCP)
    case SslVpnSubnetCidrField => Breaks(spec, NeedsSubnetCidr)
    case SslVpnImageField => Breaks(spec, NeedsSslVpnImage)
    case IPSecVpnImageField => Breaks(spec, NeedsIPSecVpnImage)
    case KeepalivedField => false
    case IPSecSecretField => false
  }

  method ValidateSslVpn(spec: VpnGwSpec, errs: seq<FieldError>) returns (allErrs: seq<FieldError>)
    requires spec.enableSslVpn
    requires forall f :: f in errs <==> f in {CPU, EnableSslVpn} && Reports(spec, f)
    ensures forall f :: f in allErrs <==> f != IPSecVpnImageField && Reports(spec, f)
  {
    SslReports(spec);
    hide Reports;
    allErrs := Complain(errs, spec.dhSecret == "", DhSecretField);
    allErrs := Complain(allErrs, spec.sslVpnSecret == "", SslVpnSecretField);
    allErrs := Complain(allErrs, spec.sslVpnCipher == "", SslVpnCipherField);
    ghost var half := allErrs;
    allErrs := Complain(allErrs, spec.sslVpnProto == "", SslVpnProtoField);
    allErrs := Complain(allErrs, spec.sslVpnSubnetCidr == "", SslVpnSubnetCidrField);
    allErrs := Complain(allErrs, spec.sslVpnProto != "udp" && spec.sslVpnProto != "tcp", SslVpnProtoField);
    allErrs := Complain(allErrs, spec.sslVpnImage == "", SslVpnImageField);
    forall f
      ensures f in allErrs <==> f != IPSecVpnImageField && Reports(spec, f)
    {
      assert f in half <==> f !in {IPSecVpnImageField, SslVpnProtoField, SslVpnSubnetCidrField, SslVpnImageField} &&
                            Reports(spec, f);
    }
  }

  /** With SSL VPN on, what a complaint about one of its fields means. */
  lemma SslReports(spec: VpnGwSpec)
    requires spec.enableSslVpn
    ensures Reports(spec, DhSecretField) <==> spec.dhSecret == ""
    ensures Reports(spec, SslVpnSecretField) <==> spec.sslVpnSecret == ""
    ensures Reports(spec, SslVpnCipherField) <==> spec.sslVpnCipher == ""
    ensures Reports(spec, SslVpnProtoField) <==>
        spec.sslVpnProto == "" || (spec.sslVpnProto != "udp" && spec.sslVpnProto != "tcp")
    ensures Reports(spec, SslVpnSubnetCidrField) <==> spec.sslVpnSubnetCidr == ""
    ensures Reports(spec, SslVpnImageField) <==> spec.sslVpnImage == ""
    ensures !Reports(spec, KeepalivedField) && !Reports(spec, IPSecSecretField)
  {
  }

  /** validateVpnGw of the webhook: every complaint. */
  method ValidateSpec(spec: VpnGwSpec) returns (allErrs: seq<FieldError>)
    ensures forall f :: f in allErrs <==> Reports(spec, f)
    ensures allErrs == [] <==> Admissible(spec)
  {
    allErrs := Complain([], spec.cpu == "" || spec.memory == "", CPU);
    allErrs := Complain(allErrs, !spec.enableSslVpn && !spec.enableIPSecVpn, EnableSslVpn);
    if spec.enableSslVpn {
      allErrs := ValidateSslVpn(spec, allErrs);
    }
    if spec.enableIPSecVpn {
      allErrs := Complain(allErrs, spec.ipsecVpnImage == "", IPSecVpnImageField);
    }
    NothingToReport(spec);
    assert allErrs != [] ==> allErrs[0] in allErrs;
  }

  lemma NothingToReport(spec: VpnGwSpec)
    ensures (forall f: FieldError :: !Reports(spec, f)) <==> Admissible(spec)
  {
    if forall f: FieldError :: !Reports(spec, f) {
      assert !Reports(spec, CPU) && !Reports(spec, EnableSslVpn) && !Reports(spec, DhSecretField);
      assert !Reports(spec, SslVpnSecretField) && !Reports(spec, SslVpnCipherField) && !Reports(spec, SslVpnProtoField);
      assert !Reports(spec, SslVpnSubnetCidrField) && !Reports(spec, SslVpnImageField);
      assert !Reports(spec, IPSecVpnImageField);
    }
  }

  // ---------- updates ----------

  /** The fields that an update may set but not change. */
  datatype Guarded = Keepalived | DhSecret | SslVpnSecret | IPSecSecret | SslVpnProto | SslVpnSubnetCidr

  function Get(spec: VpnGwSpec, f: Guarded): string {
    match f
    case Keepalived => spec.keepalived
    case DhSecret => spec.dhSecret
    case SslVpnSecret => spec.sslVpnSecret
    case IPSecSecret => spec.ipsecSecret
    case SslVpnProto => spec.sslVpnProto
    case SslVpnSubnetCidr => spec.sslVpnSubnetCidr
  }

  predicate Keeps(oldSpec: VpnGwSpec, spec: VpnGwSpec, f: Guarded) {
    Get(oldSpec, f) == "" || Get(spec, f) == Get(oldSpec, f)
  }

  ghost predicate UpdateAdmissible(oldSpec: VpnGwSpec, spec: VpnGwSpec) {
    Admissible(spec) && forall f: Guarded :: Keeps(oldSpec, spec, f)
  }

  method ValidateUpdate(spec: VpnGwSpec, oldSpec: VpnGwSpec) returns (admitted: bool)
    ensures admitted <==> UpdateAdmissible(oldSpec, spec)
  {
    var specErrs := ValidateSpec(spec);
    if specErrs != [] {
      return false;
    }
    var allErrs: seq<FieldError> := [];
    if oldSpec.keepalived != "" && oldSpec.keepalived != spec.keepalived {
      assert !Keeps(oldSpec, spec, Keepalived);
      allErrs := allErrs + [KeepalivedField];
    }
    if oldSpec.dhSecret != "" && oldSpec.dhSecret != spec.dhSecret {
      assert !Keeps(oldSpec, spec, DhSecret);
      allErrs := allErrs + [DhSecretField];
    }
    if oldSpec.sslVpnSecret != "" && oldSpec.sslVpnSecret != spec.sslVpnSecret {
      assert !Keeps(oldSpec, spec, SslVpnSecret);
      allErrs := allErrs + [SslVpnSecretField];
    }
    if oldSpec.ipsecSecret != "" && oldSpec.ipsecSecret != spec.ipsecSecret {
      assert !Keeps(oldSpec, spec, IPSecSecret);
      allErrs := allErrs + [IPSecSecretField];
    }
    if oldSpec.sslVpnProto != "" && oldSpec.sslVpnProto != spec.sslVpnProto {
      assert !Keeps(oldSpec, spec, SslVpnProto);
      allErrs := allErrs + [SslVpnProtoField];
    }
    if oldSpec.sslVpnSubnetCidr != "" && oldSpec.sslVpnSubnetCidr != spec.sslVpnSubnetCidr {
      assert !Keeps(oldSpec, spec, SslVpnSubnetCidr);
      allErrs := allErrs + [SslVpnSubnetCidrField];
    }
    return allErrs == [];
  }

  /** The two validators accept the same specifications. */
  lemma ValidatorsAgree(spec: VpnGwSpec)
    ensures FirstBroken(spec) == None <==> Admissible(spec)
  {
    if FirstBroken(spec).Some? {
      assert Breaks(spec, FirstBroken(spec).value);
    }
  }

  // ---------- histories ----------

  /** The specifications one object went through, each admitted over the one before. */
  ghost predicate AdmittedHistory(specs: seq<VpnGwSpec>) {
    forall n {:trigger specs[n]} :: 0 <= n < |specs| - 1 ==> UpdateAdmissible(specs[n], specs[n + 1])
  }

  /** Along a history a guarded field that has a value keeps it for good. */
  lemma {:induction false} WriteOnce(specs: seq<VpnGwSpec>, f: Guarded, m: nat, n: nat)
    requires AdmittedHistory(specs)
    requires m <= n < |specs| && Get(specs[m], f) != ""
    ensures Get(specs[n], f) == Get(specs[m], f)
    decreases n - m
  {
    if m < n {
      assert Keeps(specs[m], specs[m + 1], f);
      WriteOnce(specs, f, m + 1, n);
    }
  }

  /** A guarded field is first empty and then one constant: some cut and some value describe all of it. */
  lemma {:induction false} EmptyThenConstant(specs: seq<VpnGwSpec>, f: Guarded) returns (cut: nat, value: string)
    requires AdmittedHistory(specs)
    ensures cut <= |specs|
    ensures forall n :: 0 <= n < |specs| ==> Get(specs[n], f) == if n < cut then "" else value
  {
    if n :| 0 <= n < |specs| && Get(specs[n], f) != "" {
      cut := n;
      value := Get(specs[n], f);
      while cut > 0 && Get(specs[cut - 1], f) != ""
        invariant cut <= n && Get(specs[cut], f) == value != ""
      {
        WriteOnce(specs, f, cut - 1, cut);
        cut := cut - 1;
      }
      forall m | 0 <= m < |specs|
        ensures Get(specs[m], f) == if m < cut then "" else value
      {
        if m >= cut {
          WriteOnce(specs, f, cut, m);
        } else if Get(specs[m], f) != "" {
          WriteOnce(specs, f, m, cut - 1);
        }
      }
    } else {
      cut, value := |specs|, "";
    }
  }
}
