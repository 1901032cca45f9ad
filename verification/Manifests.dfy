/** The create-if-absent replay of the manifests that the ACM hub hands out. */
module Manifests {
  import opened Types
  import opened ClusterApi

  /** The objects after the documents are created in order; what exists already is left alone. */
  function CreateAll(objs: map<Key, Obj>, docs: seq<Document>): map<Key, Obj> {
    if docs == [] then objs
    else
      var before := CreateAll(objs, docs[..|docs| - 1]);
      match docs[|docs| - 1]
      case Object(id, content) =>
        if Manifest(id) in before then before else before[Manifest(id) := Obj(NO_OWNERS, ManifestBody(content))]
      case _ => before
  }

  predicate Decodes(docs: seq<Document>) {
    forall i :: 0 <= i < |docs| ==> !docs[i].Malformed?
  }

  /** The first document that describes an object. */
  function FirstContent(docs: seq<Document>, id: string): Option<string> {
    if docs == [] then None
    else if docs[0].Object? && docs[0].id == id then Some(docs[0].content)
    else FirstContent(docs[1..], id)
  }

  lemma {:induction false} FirstOfMore(docs: seq<Document>, more: seq<Document>, id: string)
    ensures FirstContent(docs + more, id) == if FirstContent(docs, id).Some? then FirstContent(docs, id) else FirstContent(more, id)
  {
    if docs == [] {
      assert docs + more == more;
    } else {
      assert (docs + more)[1..] == docs[1..] + more;
      FirstOfMore(docs[1..], more, id);
    }
  }

  lemma {:induction false} FirstExists(docs: seq<Document>, i: nat)
    requires i < |docs| && docs[i].Object?
    ensures FirstContent(docs, docs[i].id).Some?
  {
    if i > 0 { FirstExists(docs[1..], i - 1); }
  }

  /** What is there afterwards, and with what content: objects that existed are untouched, and the first document wins. */
  lemma {:induction false} Created(objs: map<Key, Obj>, docs: seq<Document>, k: Key)
    ensures var t := CreateAll(objs, docs);
      && (k in objs ==> k in t && t[k] == objs[k])
      && (k !in objs && k in t ==>
            k.Manifest? && FirstContent(docs, k.id).Some?
            && t[k] == Obj(NO_OWNERS, ManifestBody(FirstContent(docs, k.id).value)))
      && (k.Manifest? && FirstContent(docs, k.id).Some? ==> k in t)
  {
    if docs != [] {
      var front, last := docs[..|docs| - 1], docs[|docs| - 1];
      Created(objs, front, k);
      if k.Manifest? {
        assert docs == front + [last];
        FirstOfMore(front, [last], k.id);
      }
    }
  }

  /** All the listed objects exist afterwards. */
  lemma {:induction false} AllExist(objs: map<Key, Obj>, docs: seq<Document>, i: nat)
    requires i < |docs| && docs[i].Object?
    ensures Manifest(docs[i].id) in CreateAll(objs, docs)
  {
    FirstExists(docs, i);
    Created(objs, docs, Manifest(docs[i].id));
  }

  /** A crash after n documents is made good by going through all of them again. */
  lemma Replay(objs: map<Key, Obj>, docs: seq<Document>, n: nat)
    requires n <= |docs|
    ensures CreateAll(CreateAll(objs, docs[..n]), docs) == CreateAll(objs, docs)
  {
    var part := CreateAll(objs, docs[..n]);
    var l, r := CreateAll(part, docs), CreateAll(objs, docs);
    forall k ensures (k in l <==> k in r) && (k in l ==> l[k] == r[k]) {
      Created(objs, docs[..n], k);
      Created(part, docs, k);
      Created(objs, docs, k);
      if k.Manifest? {
        assert docs == docs[..n] + docs[n..];
        FirstOfMore(docs[..n], docs[n..], k.id);
      }
    }
    assert l == r;
  }

  /** Passes that crashed after ns[0], ns[1], ... documents. */
  function Crashes(objs: map<Key, Obj>, docs: seq<Document>, ns: seq<nat>): map<Key, Obj>
    requires forall i :: 0 <= i < |ns| ==> ns[i] <= |docs|
    decreases ns
  {
    if ns == [] then objs else Crashes(CreateAll(objs, docs[..ns[0]]), docs, ns[1..])
  }

  /** However many passes crashed, and wherever, one complete pass gives what one uninterrupted pass would have given. */
  lemma {:induction false} CrashesDoNotMatter(objs: map<Key, Obj>, docs: seq<Document>, ns: seq<nat>)
    requires forall i :: 0 <= i < |ns| ==> ns[i] <= |docs|
    ensures CreateAll(Crashes(objs, docs, ns), docs) == CreateAll(objs, docs)
    decreases ns
  {
    if ns != [] {
      CrashesDoNotMatter(CreateAll(objs, docs[..ns[0]]), docs, ns[1..]);
      Replay(objs, docs, ns[0]);
    }
  }

  /** The CRDs and then the import manifests are one sequence of documents. */
  lemma {:induction false} InSequence(objs: map<Key, Obj>, crds: seq<Document>, manifests: seq<Document>)
    ensures CreateAll(CreateAll(objs, crds), manifests) == CreateAll(objs, crds + manifests)
  {
    if manifests == [] {
      assert crds + manifests == crds;
    } else {
      var front := manifests[..|manifests| - 1];
      assert (crds + manifests)[..|crds + manifests| - 1] == crds + front;
      InSequence(objs, crds, front);
    }
  }
}
