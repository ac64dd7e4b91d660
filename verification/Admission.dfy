/** Admission of cluster caches: the mutating webhook resolves and signs, the validating webhook checks. */
module Admission {
  import opened ApiTypes
  import opened Splitting

  /** A signature stands for the secret and the message it was made from; anything else verifies against nothing. */
  datatype Token = Signed(secret: string, message: string) | Other(text: string)

  /** The image and the annotations the webhooks look at. */
  datatype Spec = Spec(image: string, digest: Option<string>, sig: Option<Token>)

  /** What is signed. The request id is left empty, so a signature is bound to image and digest only. */
  function Message(image: string, digest: string): string {
    "" + ['|'] + image + ['|'] + digest
  }

  function SignMutation(secret: string, image: string, digest: string): Token {
    Signed(secret, Message(image, digest))
  }

  predicate VerifyMutation(secret: string, image: string, digest: string, sig: Option<Token>) {
    sig == Some(SignMutation(secret, image, digest))
  }

  /** A missing annotation reads as the empty string. */
  function DigestOf(c: Spec): string {
    if c.digest.Some? then c.digest.value else ""
  }

  // ---------- The mutating webhook ----------

  datatype Mutation = Mutated(c: Spec, signs: bool) | Refused

  /** `resolved` is what verifying the image yields now; None when verification fails. */
  function Mutate(secret: string, c: Spec, resolved: Option<string>): Mutation {
    if c.image == "" then Mutated(c, false)
    else
      match resolved
      case None => Refused
      case Some(digest) =>
        if c.digest == Some(digest) then Mutated(c, false)
        else if secret == "" then Refused
        else Mutated(Spec(c.image, Some(digest), Some(SignMutation(secret, c.image, digest))), true)
  }

  // ---------- The validating webhook ----------

  predicate ValidateCreate(secret: string, c: Spec) {
    c.image != "" && DigestOf(c) != "" && secret != "" && VerifyMutation(secret, c.image, DigestOf(c), c.sig)
  }

  predicate ValidateUpdate(secret: string, before: Spec, c: Spec) {
    if before.image == c.image then DigestOf(before) == DigestOf(c)
    else
      c.image != "" && DigestOf(c) != "" && c.sig.Some? && secret != "" && VerifyMutation(secret, c.image, DigestOf(c), c.sig)
  }

  // ---------- Histories ----------

  /** The stored object and every image and digest the mutating webhook has signed so far. */
  datatype State = State(stored: Option<Spec>, issued: set<(string, string)>)

  datatype Request =
    | Create(c: Spec, resolved: Option<string>)
    | Update(c: Spec, resolved: Option<string>)
    | Delete

  /** Signatures cannot be made up: a valid one in a request was issued before. */
  ghost predicate Presentable(secret: string, issued: set<(string, string)>, sig: Option<Token>) {
    sig.Some? && sig.value.Signed? && sig.value.secret == secret ==>
      exists p :: p in issued && sig.value.message == Message(p.0, p.1)
  }

  /** Digests are a hash name and hexadecimal digits. */
  ghost predicate ValidRequest(secret: string, s: State, r: Request) {
    r.Delete? || (Presentable(secret, s.issued, r.c.sig) && (r.resolved.Some? ==> r.resolved.value != "" && '|' !in r.resolved.value))
  }

  predicate Admits(secret: string, s: State, r: Request) {
    match r
    case Delete => s.stored.Some?
    case Create(c, resolved) =>
      s.stored.None? && var m := Mutate(secret, c, resolved); m.Mutated? && ValidateCreate(secret, m.c)
    case Update(c, resolved) =>
      s.stored.Some? && var m := Mutate(secret, c, resolved); m.Mutated? && ValidateUpdate(secret, s.stored.value, m.c)
  }

  /** A signature is issued whenever the mutating webhook signs, also when the request is turned away afterwards. */
  function Apply(secret: string, s: State, r: Request): State {
    if r.Delete? then s.(stored := if Admits(secret, s, r) then None else s.stored)
    else
      var m := Mutate(secret, r.c, r.resolved);
      var issued := if m.Mutated? && m.signs then s.issued + {(m.c.image, DigestOf(m.c))} else s.issued;
      State(if Admits(secret, s, r) then Some(m.c) else s.stored, issued)
  }

  ghost predicate History(secret: string, ss: seq<State>, rs: seq<Request>) {
    && |ss| == |rs| + 1 && ss[0] == State(None, {})
    && forall t :: 0 <= t < |rs| ==> ValidRequest(secret, ss[t], rs[t]) && ss[t + 1] == Apply(secret, ss[t], rs[t])
  }

  // ---------- The invariant ----------

  ghost predicate Trusted(s: State) {
    && (forall p :: p in s.issued ==> p.0 != "" && p.1 != "" && '|' !in p.1)
    && (s.stored.Some? ==> s.stored.value.digest.Some? && (s.stored.value.image, s.stored.value.digest.value) in s.issued)
  }

  /** Signing is injective: the digest carries no separator. */
  lemma MessageIsInjective(a: string, b: string, d: string, e: string)
    requires '|' !in d && '|' !in e && Message(a, d) == Message(b, e)
    ensures a == b && d == e
  {
    var p, q := "" + ['|'] + a, "" + ['|'] + b;
    SplitLast('|', p, q, d, e);
    assert a == p[1..] && b == q[1..];
  }

  /** What passes the signature check was signed by the mutating webhook. */
  lemma VerifiedWasIssued(secret: string, s: State, image: string, digest: string, sig: Option<Token>)
    requires Trusted(s) && Presentable(secret, s.issued, sig) && '|' !in digest
    requires VerifyMutation(secret, image, digest, sig)
    ensures (image, digest) in s.issued
  {
    var p :| p in s.issued && sig.value.message == Message(p.0, p.1);
    MessageIsInjective(p.0, image, p.1, digest);
  }

  /** After mutation the digest is the resolved one, and its signature is either new or was presented. */
  lemma MutationFacts(secret: string, s: State, c: Spec, resolved: Option<string>)
    requires Trusted(s) && Presentable(secret, s.issued, c.sig) && c.image != ""
    requires resolved.Some? ==> resolved.value != "" && '|' !in resolved.value
    ensures var m := Mutate(secret, c, resolved);
            m.Mutated? ==>
              && m.c.image == c.image && m.c.digest == resolved
              && (VerifyMutation(secret, m.c.image, DigestOf(m.c), m.c.sig) ==> m.signs || (m.c.image, DigestOf(m.c)) in s.issued)
  {
    var m := Mutate(secret, c, resolved);
    if m.Mutated? && !m.signs && VerifyMutation(secret, m.c.image, DigestOf(m.c), m.c.sig) {
      VerifiedWasIssued(secret, s, m.c.image, DigestOf(m.c), m.c.sig);
    }
  }

  lemma TrustStays(secret: string, s: State, r: Request)
    requires Trusted(s) && ValidRequest(secret, s, r)
    ensures Trusted(Apply(secret, s, r))
  {
    if !r.Delete? && r.c.image != "" {
      MutationFacts(secret, s, r.c, r.resolved);
    }
  }

  lemma {:induction false} HistoryTrusted(secret: string, ss: seq<State>, rs: seq<Request>, t: nat)
    requires History(secret, ss, rs) && t < |ss|
    ensures Trusted(ss[t])
  {
    if t > 0 {
      HistoryTrusted(secret, ss, rs, t - 1);
      TrustStays(secret, ss[t - 1], rs[t - 1]);
    }
  }

  /** A pair was issued in a request whose image resolved to that digest at the time. */
  lemma {:induction false} IssuedAt(secret: string, ss: seq<State>, rs: seq<Request>, t: nat, p: (string, string)) returns (u: nat)
    requires History(secret, ss, rs) && t < |ss| && p in ss[t].issued
    ensures u < t && !rs[u].Delete? && rs[u].c.image == p.0 && rs[u].resolved == Some(p.1) && p in ss[u + 1].issued
  {
    if p in ss[t - 1].issued {
      u := IssuedAt(secret, ss, rs, t - 1, p);
    } else {
      u := t - 1;
    }
  }

  /**
   * Along every history the stored image and digest are a pair that the mutating webhook itself resolved and signed in some
   * earlier or the same request.
   */
  lemma StoredWasResolved(secret: string, ss: seq<State>, rs: seq<Request>, t: nat) returns (u: nat)
    requires History(secret, ss, rs) && t < |ss| && ss[t].stored.Some?
    ensures ss[t].stored.value.digest.Some?
    ensures u < t && !rs[u].Delete? && rs[u].c.image == ss[t].stored.value.image && rs[u].resolved == ss[t].stored.value.digest
    ensures (ss[t].stored.value.image, ss[t].stored.value.digest.value) in ss[u + 1].issued
  {
    HistoryTrusted(secret, ss, rs, t);
    u := IssuedAt(secret, ss, rs, t, (ss[t].stored.value.image, ss[t].stored.value.digest.value));
  }

  /** The digest changes only in an update that changes the image. */
  lemma DigestFollowsImage(secret: string, ss: seq<State>, rs: seq<Request>, t: nat)
    requires History(secret, ss, rs) && t < |rs| && ss[t].stored.Some? && ss[t + 1].stored.Some?
    ensures ss[t].stored.value.image == ss[t + 1].stored.value.image ==> ss[t].stored.value.digest == ss[t + 1].stored.value.digest
  {
    HistoryTrusted(secret, ss, rs, t);
    HistoryTrusted(secret, ss, rs, t + 1);
  }

  // ---------- Changing the image ----------

  /** An update that keeps image and digest is admitted whatever signature it carries, and that signature is stored. */
  lemma SignatureCanBeSwapped(secret: string, s: State, sig: Option<Token>)
    requires Trusted(s) && s.stored.Some?
    ensures var c := s.stored.value.(sig := sig);
            Admits(secret, s, Update(c, c.digest)) && Apply(secret, s, Update(c, c.digest)) == s.(stored := Some(c))
  {
  }

  /**
   * An update that changes the image and leaves the annotations alone is admitted if and only if the new image resolves to
   * a different digest, or the stored signature happens to be the one for the new image. When the image resolves to the
   * same digest nothing is signed again.
   */
  lemma RetagAdmittedExactlyWhen(secret: string, s: State, image: string, resolved: Option<string>)
    requires Trusted(s) && s.stored.Some? && secret != "" && image != s.stored.value.image
    requires resolved.Some? ==> resolved.value != "" && '|' !in resolved.value
    ensures Admits(secret, s, Update(s.stored.value.(image := image), resolved))
            <==> image != "" && resolved.Some?
                 && (resolved != s.stored.value.digest || s.stored.value.sig == Some(SignMutation(secret, image, resolved.value)))
  {
  }

  /** With the signature that was issued for it, a stored object cannot move to another image of the same digest. */
  lemma GenuineRetagRefused(secret: string, s: State, image: string)
    requires Trusted(s) && s.stored.Some? && secret != "" && image != s.stored.value.image
    requires s.stored.value.sig == Some(SignMutation(secret, s.stored.value.image, s.stored.value.digest.value))
    ensures !Admits(secret, s, Update(s.stored.value.(image := image), s.stored.value.digest))
  {
    var digest := s.stored.value.digest.value;
    if Message(image, digest) == Message(s.stored.value.image, digest) {
      MessageIsInjective(image, s.stored.value.image, digest, digest);
    }
  }

  // ---------- Which requests go through ----------

  /** The signature of the webhook for an image and a digest. */
  function SignatureFor(secret: string, image: string, digest: string): Option<Token> {
    Some(Signed(secret, "|" + image + "|" + digest))
  }

  lemma SignatureIsFor(secret: string, image: string, digest: string)
    ensures Some(SignMutation(secret, image, digest)) == SignatureFor(secret, image, digest)
  {
    assert "" + ['|'] + image + ['|'] + digest == "|" + image + "|" + digest;
  }

  /**
   * With nothing stored, a create is admitted if and only if it names an image, the image resolves, there is a secret, and
   * the annotations either lack the resolved digest or bring the signature for it. What is stored then is the image with
   * the resolved digest and the signature for both; in particular a create without annotations gets both.
   */
  lemma CreateExactly(secret: string, s: State, c: Spec, resolved: Option<string>)
    requires resolved.Some? ==> resolved.value != ""
    ensures Admits(secret, s, Create(c, resolved))
            <==> s.stored.None? && secret != "" && c.image != "" && resolved.Some?
                 && (c.digest == resolved ==> c.sig == SignatureFor(secret, c.image, resolved.value))
    ensures Admits(secret, s, Create(c, resolved)) ==>
              && Apply(secret, s, Create(c, resolved)).stored
                 == Some(Spec(c.image, resolved, SignatureFor(secret, c.image, resolved.value)))
              && Apply(secret, s, Create(c, resolved)).issued
                 == s.issued + (if c.digest == resolved then {} else {(c.image, resolved.value)})
  {
    if resolved.Some? {
      SignatureIsFor(secret, c.image, resolved.value);
    }
  }

  /**
   * An update is admitted if and only if its image resolves, and: with the image unchanged, to the stored digest, which the
   * annotations bring along unless there is a secret to sign it anew; with a new image, the annotations either lack the
   * resolved digest or bring the signature for it, and there is a secret.
   */
  lemma UpdateExactly(secret: string, s: State, c: Spec, resolved: Option<string>)
    requires Trusted(s) && s.stored.Some? && (resolved.Some? ==> resolved.value != "")
    ensures Admits(secret, s, Update(c, resolved))
            <==> c.image != "" && resolved.Some?
                 && if c.image == s.stored.value.image then resolved == s.stored.value.digest && (c.digest == resolved || secret != "")
                    else secret != "" && (c.digest == resolved ==> c.sig == SignatureFor(secret, c.image, resolved.value))
    ensures Admits(secret, s, Update(c, resolved)) ==>
              Apply(secret, s, Update(c, resolved)).stored
              == Some(if c.digest == resolved then c else Spec(c.image, resolved, SignatureFor(secret, c.image, resolved.value)))
  {
    if resolved.Some? {
      SignatureIsFor(secret, c.image, resolved.value);
    }
  }

  /** A delete is admitted if and only if something is stored, which is gone then; the signatures stay usable. */
  lemma DeleteExactly(secret: string, s: State)
    ensures Admits(secret, s, Delete) <==> s.stored.Some?
    ensures Apply(secret, s, Delete) == State(None, s.issued)
  {
  }

  /** A request that is turned away leaves the stored object alone. */
  lemma RefusedKeeps(secret: string, s: State, r: Request)
    requires !Admits(secret, s, r)
    ensures Apply(secret, s, r).stored == s.stored && s.issued <= Apply(secret, s, r).issued
  {
  }

  // ---------- Requests that sign nothing ----------

  /** The request goes through on the annotations it brings along. */
  predicate AdmitsUnsigned(secret: string, s: State, r: Request)
    requires !r.Delete?
  {
    Admits(secret, s, r) && !Mutate(secret, r.c, r.resolved).signs
  }

  /** The request brings the digest its image resolves to, and the signature for both. */
  predicate BringsSignature(secret: string, r: Request)
    requires !r.Delete?
  {
    && secret != "" && r.c.image != "" && r.resolved.Some? && r.c.digest == r.resolved
    && r.c.sig == Some(SignMutation(secret, r.c.image, r.resolved.value))
  }

  /**
   * A signature is not bound to the request it was made for: with nothing stored, a create that brings a pair signed at any
   * earlier time, with its signature, is admitted, and nothing is signed again.
   */
  lemma SignatureIsReplayable(secret: string, s: State, p: (string, string))
    requires Trusted(s) && s.stored.None? && p in s.issued && secret != ""
    ensures var r := Create(Spec(p.0, Some(p.1), Some(SignMutation(secret, p.0, p.1))), Some(p.1));
            && ValidRequest(secret, s, r) && AdmitsUnsigned(secret, s, r)
            && Apply(secret, s, r) == s.(stored := Some(r.c))
  {
  }

  /** A create that signs nothing is admitted exactly as a replay: it brings a signature that was issued before. */
  lemma UnsignedCreateExactlyWhen(secret: string, s: State, c: Spec, resolved: Option<string>)
    requires Trusted(s) && ValidRequest(secret, s, Create(c, resolved))
    ensures AdmitsUnsigned(secret, s, Create(c, resolved)) <==> s.stored.None? && BringsSignature(secret, Create(c, resolved))
    ensures AdmitsUnsigned(secret, s, Create(c, resolved)) ==> (c.image, resolved.value) in s.issued
  {
    if AdmitsUnsigned(secret, s, Create(c, resolved)) {
      VerifiedWasIssued(secret, s, c.image, resolved.value, c.sig);
    }
  }

  /** An update that signs nothing is admitted if it keeps image and digest, or if it brings a signature issued before. */
  lemma UnsignedUpdateExactlyWhen(secret: string, s: State, c: Spec, resolved: Option<string>)
    requires Trusted(s) && s.stored.Some? && ValidRequest(secret, s, Update(c, resolved))
    ensures AdmitsUnsigned(secret, s, Update(c, resolved))
            <==> if c.image == s.stored.value.image then c.digest == s.stored.value.digest == resolved
                 else BringsSignature(secret, Update(c, resolved))
    ensures AdmitsUnsigned(secret, s, Update(c, resolved)) ==> (c.image, resolved.value) in s.issued
  {
    if AdmitsUnsigned(secret, s, Update(c, resolved)) && c.image != s.stored.value.image {
      VerifiedWasIssued(secret, s, c.image, resolved.value, c.sig);
    }
  }

  // ---------- The object as the mutating webhook changes it ----------

  class ClusterCache {
    var image: string
    var digest: Option<string>
    var sig: Option<Token>

    function Value(): Spec
      reads this
    {
      Spec(image, digest, sig)
    }

    /** Resolve the image, and unless the digest is there already, write digest and signature into the annotations. */
    method Default(secret: string, resolved: Option<string>) returns (refused: bool, signs: bool)
      modifies this
      ensures refused <==> Mutate(secret, old(Value()), resolved).Refused?
      ensures !refused ==> Mutate(secret, old(Value()), resolved) == Mutated(Value(), signs)
    {
      refused, signs := false, false;
      if image == "" {
        return;
      }
      if resolved == None {
        return true, false;
      }
      if digest.Some? && resolved.value == digest.value {
        return;
      }
      digest := resolved;
      if secret == "" {
        return true, false;
      }
      sig := Some(SignMutation(secret, image, resolved.value));
      signs := true;
    }
  }
}
