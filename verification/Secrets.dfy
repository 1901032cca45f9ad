/** internal/secrets: copying a secret, checking its type, and keeping a generated key pair. */
module Secrets {
  import opened Types
  import opened Store
  import opened Goals
  import opened Protocol
  import opened Preservation
  import opened Fixpoints
  import opened ClusterApi
  import opened Client

  /* ------------------------------------------------------------- the type */

  predicate HasType(s: State, k: Key, kind: SecretType) {
    k in s.objs && s.objs[k].body.SecretBody? && s.objs[k].body.kind == kind
  }

  method ValidateSecretType(c: Cluster, k: Key, kind: SecretType) returns (ok: bool)
    requires c.Valid() && k.SecretKey?
    modifies c
    ensures c.Looked()
    ensures ok ==> HasType(c.st, k, kind)
    ensures old(c.Calm()) ==> c.st == old(c.st)
    ensures old(c.Faultless()) ==> ok == HasType(old(c.st), k, kind)
  {
    hide Run, Inv, Steady, Applying;
    var r := c.Get(k);
    ok := r.Ok? && r.value.body.kind == kind;
  }

  lemma TypeKept(s: State, t: State, f: iset<Key>, k: Key, kind: SecretType)
    requires k !in f
    ensures Quiet(s, t, f) ==> HasType(s, k, kind) == HasType(t, k, kind)
  {
    if Quiet(s, t, f) { assert KeptAt(s, t, k); }
  }

  /* ----------------------------------------------------------- copying */

  /** What may be copied where: the live pull secret to the backup before anything else, anything to the live pull
      secret while there is a backup, and anything to the operator's own TLS secrets. */
  ghost predicate CopyLicence(s: State, orig: Key, dest: Key, ownOrig: bool, ownDest: bool) {
    && orig.SecretKey? && orig != dest
    && (ownOrig ==> Applying(s) && UserKey(orig) && s.active.value.spec.Copies(orig))
    && (if dest == BACKUP then ownDest && !ownOrig && orig == LIVE && Applying(s) && BACKUP !in s.objs
        else if dest == LIVE then !ownDest && (Applying(s) || Finalising(s)) && BACKUP in s.objs
        else TlsKey(dest) && dest != GENERATED_API && dest != GENERATED_INGRESS && ownDest && Applying(s))
  }

  lemma CopyLicenceKept(s: State, t: State, orig: Key, dest: Key, ownOrig: bool, ownDest: bool)
    requires Inv(s) && Steady(s, t, NOTHING) && CopyLicence(s, orig, dest, ownOrig, ownDest)
    ensures CopyLicence(t, orig, dest, ownOrig, ownDest)
  {
  }

  lemma CopyLicenceOwns(s: State, orig: Key, dest: Key, ownDest: bool)
    requires CopyLicence(s, orig, dest, true, ownDest)
    ensures Licence(s, Adopt(orig))
  {
    hide Applying, Finalising;
  }

  lemma CopyLicenceWrites(s: State, orig: Key, dest: Key, ownOrig: bool, ownDest: bool, b: Body)
    requires Inv(s) && CopyLicence(s, orig, dest, ownOrig, ownDest) && b.SecretBody?
    requires !ownOrig ==> orig in s.objs && s.objs[orig].body == b
    ensures Licence(s, Put(dest, b, ownDest))
    ensures ownDest ==> Applying(s)
    ensures !Blocked(s, Put(dest, b, ownDest))
  {
    hide Applying, Finalising, Inv;
    NotBlocked(s, dest, b, ownDest);
  }

  /** The destination holds what the original holds, with the ownership that a copy leaves. */
  predicate CopySettled(s: State, orig: Key, dest: Key, ownOrig: bool, ownDest: bool) {
    && orig in s.objs
    && (ownOrig ==> Adopted(s, orig))
    && Settled(s, dest, s.objs[orig].body, ownDest)
  }

  /** The destination holds what the original held at some moment of this stretch of the run. */
  twostate predicate CopiedFrom(c: Cluster, orig: Key, dest: Key)
    reads c
  {
    && dest in c.st.objs
    && exists i :: |old(c.states)| <= i + 1 && 0 <= i < |c.states|
         && orig in c.states[i].objs && c.states[i].objs[orig].body == c.st.objs[dest].body
  }

  method CopySecret(c: Cluster, orig: Key, dest: Key, ownOrig: bool, ownDest: bool) returns (ok: bool)
    requires c.Valid() && CopyLicence(c.st, orig, dest, ownOrig, ownDest)
    modifies c
    ensures c.Went(iset{dest})
    ensures ok ==> Firm(c.st, dest) && CopiedFrom(c, orig, dest)
    ensures ok && UserKey(orig) && c.st.active.Some? ==> (orig, c.st.objs[dest].body) in c.st.held
    ensures ok && Firm(old(c.st), orig) && PartOf(orig) != Foreign ==> Holds(c.st, dest, old(c.st).objs[orig].body)
    ensures old(c.Calm()) ==> Quiet(old(c.st), c.st, iset{dest})
    ensures old(c.Calm()) && ok ==> CopySettled(c.st, orig, dest, ownOrig, ownDest)
    ensures old(c.Calm()) && CopySettled(old(c.st), orig, dest, ownOrig, ownDest) ==> c.Rested()
    ensures old(c.Faultless()) ==> ok == (orig in old(c.st).objs)
  {
    hide Run, Inv, Steady, Quiet, Licence, Applying, Finalising, Adopted, Settled, UserKey, TlsKey, KeptAt, Blocked;
    var r := c.Get(orig);
    ghost var read := c.st;
    Widen(old(c.st), read, NOTHING, iset{dest});
    CopyLicenceKept(old(c.st), read, orig, dest, ownOrig, ownDest);
    Stay(read, iset{dest});
    QuietReflexive(read, NOTHING);
    if !r.Ok? { return false; }
    c.LastState();
    var b := r.value.body;
    if Firm(old(c.st), orig) && PartOf(orig) != Foreign {
      HoldsKept(old(c.st), read, NOTHING, orig, old(c.st).objs[orig].body);
    }

    ok := Overwrite(c, orig, dest, b, ownOrig, ownDest);
    Join(old(c.st), read, c.st, NOTHING, iset{dest}, iset{dest});
    HeldSince(read, c.st, iset{dest}, orig);
  }

  /** What a user's secret held when it was read is among what it has held since the pass began. */
  lemma HeldSince(s: State, t: State, f: iset<Key>, k: Key)
    requires Inv(s) && Steady(s, t, f) && k in s.objs
    ensures UserKey(k) && t.active.Some? ==> (k, s.objs[k].body) in t.held
  {
  }

  /** The copy, once the original has been read. */
  method Overwrite(c: Cluster, orig: Key, dest: Key, b: Body, ownOrig: bool, ownDest: bool) returns (ok: bool)
    requires c.Valid() && CopyLicence(c.st, orig, dest, ownOrig, ownDest) && b.SecretBody?
    requires orig in c.st.objs && c.st.objs[orig].body == b
    modifies c
    ensures c.Went(iset{dest})
    ensures ok ==> Holds(c.st, dest, b)
    ensures old(c.Calm()) ==> Quiet(old(c.st), c.st, iset{dest})
    ensures old(c.Calm()) && ok ==> CopySettled(c.st, orig, dest, ownOrig, ownDest)
    ensures old(c.Calm()) && CopySettled(old(c.st), orig, dest, ownOrig, ownDest) ==> c.Rested()
    ensures old(c.Faultless()) ==> ok
  {
    hide Run, Inv, Steady, Quiet, Licence, Applying, Finalising, Adopted, Settled, UserKey, TlsKey, KeptAt, Blocked;
    Stay(c.st, iset{dest});
    QuietReflexive(c.st, NOTHING);
    if ownOrig {
      CopyLicenceOwns(c.st, orig, dest, ownDest);
      ok := Own(c, orig);
      Widen(old(c.st), c.st, NOTHING, iset{dest});
      CopyLicenceKept(old(c.st), c.st, orig, dest, ownOrig, ownDest);
      OriginalKept(old(c.st), c.st, NOTHING, orig);
      if !ok { return; }
    }
    ghost var owned := c.st;
    CopyLicenceWrites(owned, orig, dest, ownOrig, ownDest, b);
    ok := Client.Apply(c, dest, b, ownDest);
    Join(old(c.st), owned, c.st, iset{dest}, iset{dest}, iset{dest});
    OriginalKept(owned, c.st, iset{dest}, orig);
  }

  /** The original keeps its content, and its owner, while the copy is written. */
  lemma OriginalKept(s: State, t: State, f: iset<Key>, k: Key)
    requires k !in f
    ensures Quiet(s, t, f) && k in s.objs ==> k in t.objs && t.objs[k].body == s.objs[k].body && (Adopted(s, k) ==> Adopted(t, k))
  {
    if Quiet(s, t, f) { assert KeptAt(s, t, k); }
  }

  /* ------------------------------------------------ generated key pairs */

  /** The loadbalancer-serving-signer secret decodes. */
  predicate SignerOk(s: State) {
    var signer := SecretKey(OtherNamespace("openshift-kube-apiserver-operator"), OtherSecret("loadbalancer-serving-signer"));
    && signer in s.objs && s.objs[signer].body.SecretBody?
    && var data := s.objs[signer].body.data;
    TlsCrt in data && data[TlsCrt].CertPem? && TlsKeyName in data && data[TlsKeyName].KeyPem?
  }

  /** GenerateTLSKeyPair, abstracted to its contract: a fresh pair whose common name is the one asked for. */
  method GenerateKeyPair(c: Cluster, commonName: string) returns (data: Option<Data>)
    requires c.Valid()
    modifies c
    ensures c.Looked()
    ensures data.Some? ==> Whole(data.value) && CommonName(data.value[TlsCrt]) == Some(commonName)
    ensures old(c.Calm()) ==> c.st == old(c.st)
    ensures old(c.Faultless()) ==> data.Some? == SignerOk(old(c.st))
  {
    hide Run, Inv, Steady, Applying;
    var pair := c.turns(c.tick).pair;
    var r := c.Get(SIGNER);
    if r.Ok?
       && TlsCrt in r.value.body.data && r.value.body.data[TlsCrt].CertPem?
       && TlsKeyName in r.value.body.data && r.value.body.data[TlsKeyName].KeyPem? {
      data := Some(map[TlsCrt := CertPem(commonName, pair), TlsKeyName := KeyPem(pair)]);
    } else {
      data := None;
    }
  }

  predicate PairSettled(s: State, cr: Relocation, k: Key, commonName: string) {
    HasPair(s, k, commonName) && Mine(s, cr, k, SecretBody(DataOf(s.objs[k].body), Tls))
  }

  /** What has to hold for a generated secret to be kept or made anew. */
  predicate PairFeasible(s: State, k: Key, commonName: string) {
    if k in s.objs && TlsCrt in DataOf(s.objs[k].body) then
      CommonName(DataOf(s.objs[k].body)[TlsCrt]).Some? && (HasPair(s, k, commonName) || SignerOk(s))
    else SignerOk(s)
  }

  predicate PairStays(s: State, t: State, k: Key, commonName: string) {
    Firm(s, k) && HasPair(s, k, commonName) ==> Firm(t, k) && DataOf(t.objs[k].body) == DataOf(s.objs[k].body)
  }

  lemma PairIsSteady(s: State, t: State, k: Key, commonName: string)
    requires Steady(s, t, NOTHING) && TlsKey(k)
    ensures PairStays(s, t, k, commonName)
  {
    hide Applying, Finalising, Sound, Superseded;
  }

  /** Keep the generated pair as long as its common name fits the domain, generate one otherwise. */
  method KeepKeyPair(c: Cluster, cr: Relocation, k: Key, commonName: string) returns (ok: bool)
    requires c.Works(cr) && PairName(k, cr.spec) == Some(commonName)
    modifies c
    ensures c.Went(iset{k}) && c.Works(cr)
    ensures ok ==> Firm(c.st, k) && HasPair(c.st, k, commonName)
    // a pair with the right name is kept, however the call ends
    ensures PairStays(old(c.st), c.st, k, commonName)
    ensures old(c.Calm()) ==> Quiet(old(c.st), c.st, iset{k})
    ensures old(c.Calm()) && ok ==> PairSettled(c.st, cr, k, commonName)
    ensures old(c.Calm()) && PairSettled(old(c.st), cr, k, commonName) ==> c.Rested()
    ensures old(c.Faultless()) ==> ok == PairFeasible(old(c.st), k, commonName)
  {
    hide Run, Inv, Steady, Quiet, Licence, Applying, SignerOk;
    var r := c.Get(k);
    ghost var read := c.st;
    Widen(old(c.st), read, NOTHING, iset{k});
    Stay(read, iset{k});
    PairIsSteady(old(c.st), read, k, commonName);
    if r.Failed? { return false; }
    if r.Ok? && TlsCrt in r.value.body.data {
      if CommonName(r.value.body.data[TlsCrt]).None? { return false; }
      if CommonName(r.value.body.data[TlsCrt]) == Some(commonName) {
        StoredIsWhole(c.st, cr.spec, k);
        ok := WritePair(c, cr, k, r.value.body.data);
        Join(old(c.st), read, c.st, NOTHING, iset{k}, iset{k});
        if Steady(read, c.st, NOTHING) { PairIsSteady(read, c.st, k, commonName); }
        return;
      }
    }
    ok := Regenerate(c, cr, k, commonName);
    Join(old(c.st), read, c.st, NOTHING, iset{k}, iset{k});
  }

  lemma StoredIsWhole(s: State, sp: Spec, k: Key)
    requires Inv(s) && PairName(k, sp).Some?
    ensures k in s.objs ==> Whole(DataOf(s.objs[k].body))
  {
  }

  /** A new pair, where there is none or one for another domain. */
  method Regenerate(c: Cluster, cr: Relocation, k: Key, commonName: string) returns (ok: bool)
    requires c.Works(cr) && PairName(k, cr.spec) == Some(commonName) && !HasPair(c.st, k, commonName)
    modifies c
    ensures c.Went(iset{k}) && c.Works(cr)
    ensures ok ==> Firm(c.st, k) && HasPair(c.st, k, commonName)
    ensures old(c.Calm()) ==> Quiet(old(c.st), c.st, iset{k})
    ensures old(c.Calm()) && ok ==> PairSettled(c.st, cr, k, commonName)
    ensures old(c.Faultless()) ==> ok == SignerOk(old(c.st))
  {
    hide Run, Inv, Steady, Quiet, Licence, Applying, SignerOk;
    var data := GenerateKeyPair(c, commonName);
    Widen(old(c.st), c.st, NOTHING, iset{k});
    Stay(c.st, iset{k});
    if data.None? { return false; }
    ghost var generated := c.st;
    if HasPair(generated, k, commonName) { NoPairAppears(old(c.st), generated, k, commonName); }
    ok := WritePair(c, cr, k, data.value);
    Join(old(c.st), generated, c.st, iset{k}, iset{k}, iset{k});
  }

  /** Nobody else writes the operator's secrets. */
  lemma NoPairAppears(s: State, t: State, k: Key, commonName: string)
    requires Steady(s, t, NOTHING) && TlsKey(k) && HasPair(t, k, commonName)
    ensures HasPair(s, k, commonName)
  {
  }

  /** The second half of CreateOrUpdate. */
  method WritePair(c: Cluster, cr: Relocation, k: Key, data: Data) returns (ok: bool)
    requires c.Works(cr) && TlsKey(k) && Renews(c.st, k, SecretBody(data, Tls))
    modifies c
    ensures c.Went(iset{k}) && c.Works(cr)
    ensures ok ==> Holds(c.st, k, SecretBody(data, Tls))
    ensures Holds(c.st, k, SecretBody(data, Tls)) || Steady(old(c.st), c.st, NOTHING)
    ensures old(c.Calm()) ==> Quiet(old(c.st), c.st, iset{k})
    ensures old(c.Calm()) && ok ==> Mine(c.st, cr, k, SecretBody(data, Tls))
    ensures old(c.Calm()) && Mine(old(c.st), cr, k, SecretBody(data, Tls)) ==> c.Rested()
    ensures old(c.Faultless()) ==> ok
  {
    hide Run, Inv, Steady, Quiet, Licence, Applying, Effect;
    var b := SecretBody(data, Tls);
    var w := Put(k, b, true);
    OwnLicence(c.st, k, b);
    WriteIsQuiet(c.st, w);
    Stay(c.st, iset{k});
    WriteSettles(c.st, k, b, true);
    if k in c.st.objs && PutObj(c.st, k, b, true) == c.st.objs[k] {
      NoOperation(c.st, w);
      return true;
    }
    var sent := c.Send(w);
    ok := sent.Ok?;
  }
}
