/** Recognising a FreeCAD job in the g-code loaded on the machine.
    The first three lines of a program exported by the workbench name the
    job, the document it came from and the signature of its path; a job is
    bound when an open document has that file name and holds an object with
    that title. */
module JobSync {
  import opened Util

  datatype ToolController = ToolController(toolNumber: int, userLabel: string)

  /** A snapshot of a Path.Job object: `document` is the Name of the
      document holding it, which together with the object's `name`
      identifies it; `signature` is the text of MKUtils.pathSignature of its
      path. */
  datatype Job = Job(document: string, name: string, userLabel: string, signature: string,
                     toolControllers: seq<ToolController>)

  /** Python compares document objects by identity: two snapshots are of the
      same job when they name the same object of the same document. */
  predicate SameJob(a: Option<Job>, b: Option<Job>) {
    match a
    case None => b.None?
    case Some(x) => b.Some? && x.document == b.value.document && x.name == b.value.name
  }

  /** Identity is an equivalence that equal snapshots satisfy and that tells
      no job apart from a job. */
  lemma SameJobEquivalence(a: Option<Job>, b: Option<Job>, c: Option<Job>)
    ensures a == b ==> SameJob(a, b)
    ensures SameJob(a, b) ==> SameJob(b, a)
    ensures SameJob(a, b) && SameJob(b, c) ==> SameJob(a, c)
    ensures SameJob(a, None) <==> a == None
  {
  }

  /** An open FreeCAD document: its FileName and the objects it holds by name. */
  datatype Document = Document(fileName: string, objects: map<string, Job>)

  datatype Header = Header(title: string, filename: string, signature: string)

  /** What `updateJob` logs for a matching job. */
  datatype Notice = Loaded(job: Job) | OutOfDate(job: Job)

  const JobPrefix := "(FreeCAD.Job: "
  const FilePrefix := "(FreeCAD.File: "
  const SignaturePrefix := "(FreeCAD.Signature: "

  /** The slice offsets written in the source are the lengths of the prefixes. */
  lemma PrefixLengths()
    ensures |JobPrefix| == 14 && |FilePrefix| == 15 && |SignaturePrefix| == 20
  {
  }

  /** The header check and slicing of `updateJob`: `lines[0][14:-1]` and so on. */
  function ParseHeader(lines: seq<string>): (r: Option<Header>)
    ensures r.Some? <==>
      |lines| > 2 && StartsWith(lines[0], JobPrefix) && StartsWith(lines[1], FilePrefix)
      && StartsWith(lines[2], SignaturePrefix)
  {
    if |lines| > 2 && StartsWith(lines[0], JobPrefix) && StartsWith(lines[1], FilePrefix)
       && StartsWith(lines[2], SignaturePrefix)
    then
      Some(Header(SliceDropLast(lines[0], 14), SliceDropLast(lines[1], 15), SliceDropLast(lines[2], 20)))
    else None
  }

  /** The header lines the workbench writes for a job. */
  function HeaderLines(h: Header): seq<string> {
    [JobPrefix + h.title + ")", FilePrefix + h.filename + ")", SignaturePrefix + h.signature + ")"]
  }

  lemma SliceOfWrapped(prefix: string, t: string)
    ensures SliceDropLast(prefix + t + ")", |prefix|) == t
  {
    var s := prefix + t + ")";
    assert s[|prefix|..|s| - 1] == t;
  }

  /** Reading back a written header gives the job title, file name and
      signature that were written, whatever follows the header. */
  lemma {:induction false} ParseHeaderLines(h: Header, rest: seq<string>)
    ensures ParseHeader(HeaderLines(h) + rest) == Some(h)
  {
    var lines := HeaderLines(h) + rest;
    assert lines[0] == JobPrefix + h.title + ")";
    assert lines[1] == FilePrefix + h.filename + ")";
    assert lines[2] == SignaturePrefix + h.signature + ")";
    assert (JobPrefix + h.title + ")")[..14] == JobPrefix;
    assert (FilePrefix + h.filename + ")")[..15] == FilePrefix;
    assert (SignaturePrefix + h.signature + ")")[..20] == SignaturePrefix;
    SliceOfWrapped(JobPrefix, h.title);
    SliceOfWrapped(FilePrefix, h.filename);
    SliceOfWrapped(SignaturePrefix, h.signature);
  }

  /** Conversely, header lines that close with ')' are exactly the lines
      written for the header they parse to. */
  lemma {:induction false} HeaderLinesOfParse(lines: seq<string>, h: Header)
    requires ParseHeader(lines) == Some(h)
    requires forall k :: 0 <= k < 3 ==> |lines[k]| > 0 && lines[k][|lines[k]| - 1] == ')'
    ensures lines[..3] == HeaderLines(h)
  {
    Rewrap(lines[0], JobPrefix, h.title);
    Rewrap(lines[1], FilePrefix, h.filename);
    Rewrap(lines[2], SignaturePrefix, h.signature);
  }

  lemma Rewrap(line: string, prefix: string, t: string)
    requires StartsWith(line, prefix) && |prefix| > 0 && prefix[|prefix| - 1] != ')'
    requires |line| > 0 && line[|line| - 1] == ')'
    requires t == SliceDropLast(line, |prefix|)
    ensures line == prefix + t + ")"
  {
    assert line == line[..|prefix|] + line[|prefix|..|line| - 1] + [line[|line| - 1]];
  }

  /** `doc.getObject(title)` */
  function GetObject(d: Document, title: string): Option<Job> {
    if title in d.objects then Some(d.objects[title]) else None
  }

  /** The job `updateJob` binds: the loop over the open documents keeps no
      early exit, so the last document whose FileName matches decides,
      whether or not it holds an object of that title. The signature plays
      no part. */
  function Bind(docs: seq<Document>, h: Header): Option<Job>
  {
    if docs == [] then None
    else
      var d := docs[|docs| - 1];
      if d.fileName == h.filename then GetObject(d, h.title) else Bind(docs[..|docs| - 1], h)
  }

  /** The log lines of that loop: one per matching document that holds the
      titled object, "loaded" when the signatures agree, "out of date"
      otherwise. */
  function Notices(docs: seq<Document>, h: Header): seq<Notice>
  {
    if docs == [] then []
    else
      var d := docs[|docs| - 1];
      var n := if d.fileName == h.filename && h.title in d.objects then
                 var j := d.objects[h.title];
                 [if j.signature == h.signature then Loaded(j) else OutOfDate(j)]
               else [];
      Notices(docs[..|docs| - 1], h) + n
  }

  /** Document `i` is the last one whose FileName is the header's. */
  ghost predicate IsLastMatch(docs: seq<Document>, h: Header, i: int) {
    && 0 <= i < |docs| && docs[i].fileName == h.filename
    && forall k :: i < k < |docs| ==> docs[k].fileName != h.filename
  }

  /** The bound job comes from the last document with the header's file name:
      it is that document's object of the header's title; with no such
      document nothing is bound. */
  lemma BindIsLastMatch(docs: seq<Document>, h: Header)
    ensures Bind(docs, h).Some? ==>
              exists i :: IsLastMatch(docs, h, i) && GetObject(docs[i], h.title) == Bind(docs, h)
    ensures forall i :: IsLastMatch(docs, h, i) ==> Bind(docs, h) == GetObject(docs[i], h.title)
    ensures (forall i :: 0 <= i < |docs| ==> docs[i].fileName != h.filename) ==> Bind(docs, h) == None
  {
    if Bind(docs, h).Some? {
      BoundHasLastMatch(docs, h);
    }
    forall i | IsLastMatch(docs, h, i) ensures Bind(docs, h) == GetObject(docs[i], h.title) {
      BindOfLastMatch(docs, h, i);
    }
    if forall i :: 0 <= i < |docs| ==> docs[i].fileName != h.filename {
      BindNoMatch(docs, h);
    }
  }

  lemma {:induction false} BindOfLastMatch(docs: seq<Document>, h: Header, i: int)
    requires IsLastMatch(docs, h, i)
    ensures Bind(docs, h) == GetObject(docs[i], h.title)
    decreases |docs|
  {
    var n := |docs| - 1;
    if i < n {
      var init := docs[..n];
      assert docs[n].fileName != h.filename;
      assert forall k :: 0 <= k < n ==> init[k] == docs[k];
      BindOfLastMatch(init, h, i);
    }
  }

  lemma {:induction false} BindNoMatch(docs: seq<Document>, h: Header)
    requires forall i :: 0 <= i < |docs| ==> docs[i].fileName != h.filename
    ensures Bind(docs, h) == None
    decreases |docs|
  {
    if docs != [] {
      var n := |docs| - 1;
      var init := docs[..n];
      assert forall k :: 0 <= k < n ==> init[k] == docs[k];
      BindNoMatch(init, h);
    }
  }

  lemma {:induction false} BoundHasLastMatch(docs: seq<Document>, h: Header)
    requires Bind(docs, h).Some?
    ensures exists i :: IsLastMatch(docs, h, i) && GetObject(docs[i], h.title) == Bind(docs, h)
    decreases |docs|
  {
    var n := |docs| - 1;
    if docs[n].fileName == h.filename {
      assert IsLastMatch(docs, h, n);
    } else {
      var init := docs[..n];
      BoundHasLastMatch(init, h);
      var i :| IsLastMatch(init, h, i) && GetObject(init[i], h.title) == Bind(init, h);
      assert docs[i] == init[i];
      assert IsLastMatch(docs, h, i);
    }
  }

  /** A job whose signature differs from the header's is still bound; only
      an out-of-date notice is logged for it. */
  lemma {:induction false} BoundDespiteMismatch(docs: seq<Document>, h: Header, i: nat)
    requires i < |docs| && docs[i].fileName == h.filename && h.title in docs[i].objects
    requires docs[i].objects[h.title].signature != h.signature
    requires forall k :: 0 <= k < |docs| && k != i ==> docs[k].fileName != h.filename
    ensures Bind(docs, h) == Some(docs[i].objects[h.title])
    ensures Notices(docs, h) == [OutOfDate(docs[i].objects[h.title])]
  {
    BindIsLastMatch(docs, h);
    NoticesSingle(docs, h, i);
  }

  lemma {:induction false} NoticesSingle(docs: seq<Document>, h: Header, i: nat)
    requires i < |docs| && docs[i].fileName == h.filename && h.title in docs[i].objects
    requires forall k :: 0 <= k < |docs| && k != i ==> docs[k].fileName != h.filename
    ensures var j := docs[i].objects[h.title];
      Notices(docs, h) == [if j.signature == h.signature then Loaded(j) else OutOfDate(j)]
    decreases |docs|
  {
    var n := |docs| - 1;
    var init := docs[..n];
    if i < n {
      NoticesSingle(init, h, i);

    } else {
      NoticesNone(init, h);
    }
  }

  lemma {:induction false} NoticesNone(docs: seq<Document>, h: Header)
    requires forall k :: 0 <= k < |docs| ==> docs[k].fileName != h.filename
    ensures Notices(docs, h) == []
    decreases |docs|
  {
    if docs != [] { NoticesNone(docs[..|docs| - 1], h); }
  }

  /** The job `updateJob` binds from fetched lines: none when the header is
      missing. */
  function LoadedJob(lines: seq<string>, docs: seq<Document>): Option<Job> {
    match ParseHeader(lines)
    case None => None
    case Some(h) => Bind(docs, h)
  }

  function LoadedNotices(lines: seq<string>, docs: seq<Document>): seq<Notice> {
    match ParseHeader(lines)
    case None => []
    case Some(h) => Notices(docs, h)
  }

  /** What `updateJob` leaves behind: whether a later heartbeat must retry,
      the g-code lines kept, the job to bind and the log lines written. */
  datatype Refresh = Refresh(needUpdate: bool, gcode: seq<string>, job: Option<Job>, notices: seq<Notice>)

  /** `updateJob` given the task's file (`path`), the remote file path
      (`rpath`), whether a `file` endpoint is advertised, the stripped lines
      the fetch would return, the open documents and the g-code kept so far.
      When something is missing it asks to be retried and forgets the
      g-code; when the task runs another file it keeps the g-code and binds
      nothing; otherwise it takes the fetched lines and binds the job they
      name. */
  function RefreshJob(path: Option<string>, rpath: Option<string>, hasFileEndpoint: bool,
                      fetched: seq<string>, docs: seq<Document>, gcode: seq<string>): Refresh
  {
    if path.None? || rpath.None? || !hasFileEndpoint then Refresh(true, [], None, [])
    else if rpath != path then Refresh(false, gcode, None, [])
    else Refresh(false, fetched, LoadedJob(fetched, docs), LoadedNotices(fetched, docs))
  }

  /** A program written for a job of an open document, fetched from the file
      the task runs, binds that job and logs exactly one line about it,
      "loaded" or "out of date" by its signature; the lines are kept. */
  lemma {:induction false} RefreshBindsWrittenJob(path: string, h: Header, rest: seq<string>,
                                                  docs: seq<Document>, i: nat, gcode: seq<string>)
    requires i < |docs| && docs[i].fileName == h.filename && h.title in docs[i].objects
    requires forall k :: 0 <= k < |docs| && k != i ==> docs[k].fileName != h.filename
    ensures var j := docs[i].objects[h.title];
      var r := RefreshJob(Some(path), Some(path), true, HeaderLines(h) + rest, docs, gcode);
      && r.needUpdate == false
      && r.gcode == HeaderLines(h) + rest
      && r.job == Some(j)
      && r.notices == [if j.signature == h.signature then Loaded(j) else OutOfDate(j)]
  {
    ParseHeaderLines(h, rest);
    BindIsLastMatch(docs, h);
    NoticesSingle(docs, h, i);
  }

  /** Fetched lines without the three header lines bind nothing and log
      nothing, whatever documents are open. */
  lemma {:induction false} RefreshWithoutHeader(path: string, fetched: seq<string>, docs: seq<Document>, gcode: seq<string>)
    requires |fetched| <= 2 || !StartsWith(fetched[0], JobPrefix)
      || !StartsWith(fetched[1], FilePrefix) || !StartsWith(fetched[2], SignaturePrefix)
    ensures var r := RefreshJob(Some(path), Some(path), true, fetched, docs, gcode);
      r == Refresh(false, fetched, None, [])
  {
    assert ParseHeader(fetched) == None;
  }
}
