/** The MOT20 dataset adapter: derives its paths from a root directory,
    checks that they exist, and parses the training label file into image
    records. Reading the file and probing the file system are left to the
    caller: the file arrives as its lines, existence as a predicate. */
module Mot20Adapter {
  import opened Wrappers
  import opened Paths
  import opened Tokens

  /** One labelled image: `(img_path, pid, camid, trackid)`. */
  datatype ImageRecord = ImageRecord(imgPath: string, pid: int, camid: int, trackid: int)

  /** The counts `get_imagedata_info` reports for one split:
      identities, images, cameras and tracks. */
  datatype ImageDataInfo = ImageDataInfo(numPids: int, numImgs: int, numCams: int, numVids: int)

  /** Why loading fails. */
  datatype LoadError =
    | MissingPath(path: string)    // RuntimeError naming the missing path
    | WrongFieldCount(found: nat)  // ValueError: the fields of a line do not unpack into three
    | NotAnInteger(token: string)  // ValueError: the token is not a base-10 integer

  const DatasetSubdir: string := "MOT20/images"
  const TrainSubdir: string := "train"
  const TrainLabelName: string := "train.txt"

  /** One label line: strip and split it, demand exactly three fields, join
      the first onto the dataset directory and convert the other two with
      `int()`, in that order; the track id is always 0. */
  function ParseLine(datasetDir: string, line: string): (r: Result<ImageRecord, LoadError>)
    ensures r.Success? ==> r.value.trackid == 0
  {
    var fields := Split(Strip(line));
    if |fields| != 3 then Failure(WrongFieldCount(|fields|))
    else
      var imgPath := Join(datasetDir, fields[0]);
      match ParseInt(fields[1])
      case None => Failure(NotAnInteger(fields[1]))
      case Some(pid) =>
        match ParseInt(fields[2])
        case None => Failure(NotAnInteger(fields[2]))
        case Some(camid) => Success(ImageRecord(imgPath, pid, camid, 0))
  }

  /** What a line yields, in terms of its whitespace-separated fields: a
      record exactly when there are three fields and the last two are
      integers; otherwise the error for the first check that fails. A blank
      line is a line with no fields. */
  lemma ParseLineFields(datasetDir: string, line: string)
    ensures var r := ParseLine(datasetDir, line);
      var f := Split(line);
      && (r.Success? <==> |f| == 3 && IsIntLiteral(f[1]) && IsIntLiteral(f[2]))
      && (|f| != 3 ==> r == Failure(WrongFieldCount(|f|)))
      && (|f| == 3 && !IsIntLiteral(f[1]) ==> r == Failure(NotAnInteger(f[1])))
      && (|f| == 3 && IsIntLiteral(f[1]) && !IsIntLiteral(f[2]) ==> r == Failure(NotAnInteger(f[2])))
      && (r.Success? ==> r.value == ImageRecord(Join(datasetDir, f[0]), ParseInt(f[1]).value, ParseInt(f[2]).value, 0))
    ensures AllSpace(line) ==> ParseLine(datasetDir, line) == Failure(WrongFieldCount(0))
  {
    SplitOfStrip(line);
    SplitBlank(line);
  }

  /** The fields of a label line: `<relative path> <pid> <camid>`. */
  function FormatFields(relPath: string, pid: int, camid: int): string {
    Unsplit([relPath, IntToString(pid), IntToString(camid)])
  }

  /** A label line as the file holds it, with its newline. */
  function FormatLine(relPath: string, pid: int, camid: int): string {
    FormatFields(relPath, pid, camid) + "\n"
  }

  /** Parsing a written label line, with or without its newline (the last
      line of a file need not end in one), gives back its image, resolved
      against the dataset directory, with track 0. */
  lemma ParseFormatLine(datasetDir: string, relPath: string, pid: int, camid: int)
    requires IsWord(relPath)
    ensures ParseLine(datasetDir, FormatLine(relPath, pid, camid))
         == Success(ImageRecord(Join(datasetDir, relPath), pid, camid, 0))
    ensures ParseLine(datasetDir, FormatFields(relPath, pid, camid))
         == Success(ImageRecord(Join(datasetDir, relPath), pid, camid, 0))
  {
    var ws := [relPath, IntToString(pid), IntToString(camid)];
    SplitUnsplit(ws);
    SplitIgnoresTrailingSpace(Unsplit(ws), "\n");
    ParseIntToString(pid);
    ParseIntToString(camid);
    ParseLineFields(datasetDir, FormatLine(relPath, pid, camid));
    ParseLineFields(datasetDir, FormatFields(relPath, pid, camid));
  }

  /** The records of the first `|lines|` lines, or the error of the first
      line that fails; this is the state `_process_dir` reaches line by line. */
  function ParseLabels(datasetDir: string, lines: seq<string>): (r: Result<seq<ImageRecord>, LoadError>)
    ensures r.Success? ==> |r.value| == |lines|
    ensures r.Success? ==> forall i :: 0 <= i < |lines| ==> ParseLine(datasetDir, lines[i]) == Success(r.value[i])
    decreases |lines|
  {
    if lines == [] then Success([])
    else
      match ParseLabels(datasetDir, lines[..|lines| - 1])
      case Failure(e) => Failure(e)
      case Success(data) =>
        match ParseLine(datasetDir, lines[|lines| - 1])
        case Failure(e) => Failure(e)
        case Success(rec) => Success(data + [rec])
  }

  /** A file whose every line parses yields a record list. */
  lemma {:induction false} ParseLabelsComplete(datasetDir: string, lines: seq<string>)
    requires forall i :: 0 <= i < |lines| ==> ParseLine(datasetDir, lines[i]).Success?
    ensures ParseLabels(datasetDir, lines).Success?
  {
    if lines != [] {
      ParseLabelsComplete(datasetDir, lines[..|lines| - 1]);
    }
  }

  /** A failure is the error of the first line that does not parse. */
  lemma {:induction false} ParseLabelsFirstError(datasetDir: string, lines: seq<string>)
    requires ParseLabels(datasetDir, lines).Failure?
    ensures exists k :: (0 <= k < |lines|
      && ParseLine(datasetDir, lines[k]) == Failure(ParseLabels(datasetDir, lines).error)
      && forall j :: 0 <= j < k ==> ParseLine(datasetDir, lines[j]).Success?)
  {
    var init := lines[..|lines| - 1];
    var e := ParseLabels(datasetDir, lines).error;
    if ParseLabels(datasetDir, init).Failure? {
      ParseLabelsFirstError(datasetDir, init);
      var k :| 0 <= k < |init|
        && ParseLine(datasetDir, init[k]) == Failure(ParseLabels(datasetDir, init).error)
        && forall j :: 0 <= j < k ==> ParseLine(datasetDir, init[j]).Success?;
      assert lines[k] == init[k];
      assert forall j :: 0 <= j < k ==> lines[j] == init[j];
    } else {
      var k := |lines| - 1;
      assert forall j :: 0 <= j < k ==> lines[j] == init[j];
    }
  }

  /** Once a prefix of the file fails, the whole file fails the same way. */
  lemma {:induction false} ParseLabelsPrefixFailure(datasetDir: string, lines: seq<string>, k: nat)
    requires k <= |lines|
    requires ParseLabels(datasetDir, lines[..k]).Failure?
    ensures ParseLabels(datasetDir, lines) == ParseLabels(datasetDir, lines[..k])
    decreases |lines| - k
  {
    if k == |lines| {
      assert lines[..k] == lines;
    } else {
      var init := lines[..|lines| - 1];
      assert init[..k] == lines[..k];
      ParseLabelsPrefixFailure(datasetDir, init, k);
    }
  }

  /** A label file written from entries parses back into exactly their
      records, one per line and in order. */
  lemma LabelFileRoundTrip(datasetDir: string, relPaths: seq<string>, pids: seq<int>, camids: seq<int>, lines: seq<string>)
    requires |relPaths| == |pids| == |camids| == |lines|
    requires forall i :: 0 <= i < |lines| ==> IsWord(relPaths[i]) && lines[i] == FormatLine(relPaths[i], pids[i], camids[i])
    ensures ParseLabels(datasetDir, lines).Success?
    ensures forall i :: 0 <= i < |lines| ==>
      ParseLabels(datasetDir, lines).value[i] == ImageRecord(Join(datasetDir, relPaths[i]), pids[i], camids[i], 0)
  {
    forall i | 0 <= i < |lines|
      ensures ParseLine(datasetDir, lines[i]) == Success(ImageRecord(Join(datasetDir, relPaths[i]), pids[i], camids[i], 0))
    {
      ParseFormatLine(datasetDir, relPaths[i], pids[i], camids[i]);
    }
    ParseLabelsComplete(datasetDir, lines);
  }

  /** The same for a file whose last line has no newline, as `readlines`
      returns it when the file does not end in one. */
  lemma LabelFileRoundTripUnterminated(datasetDir: string, relPaths: seq<string>, pids: seq<int>, camids: seq<int>,
                                       lines: seq<string>)
    requires |relPaths| == |pids| == |camids| == |lines| > 0
    requires forall i :: 0 <= i < |lines| ==> IsWord(relPaths[i])
    requires forall i :: 0 <= i < |lines| - 1 ==> lines[i] == FormatLine(relPaths[i], pids[i], camids[i])
    requires lines[|lines| - 1] == FormatFields(relPaths[|lines| - 1], pids[|lines| - 1], camids[|lines| - 1])
    ensures ParseLabels(datasetDir, lines).Success?
    ensures forall i :: 0 <= i < |lines| ==>
      ParseLabels(datasetDir, lines).value[i] == ImageRecord(Join(datasetDir, relPaths[i]), pids[i], camids[i], 0)
  {
    var n := |lines| - 1;
    LabelFileRoundTrip(datasetDir, relPaths[..n], pids[..n], camids[..n], lines[..n]);
    ParseFormatLine(datasetDir, relPaths[n], pids[n], camids[n]);
  }

  /** The MOT20 adapter object. */
  class Mot20 {
    const datasetDir: string
    const trainDir: string
    const trainLabel: string
    /** `get_imagedata_info`, inherited from the base dataset class; it is
        not part of this model, so it is given as a function. */
    const imagedataInfo: seq<ImageRecord> -> ImageDataInfo

    var train: seq<ImageRecord>
    var query: seq<ImageRecord>
    var gallery: seq<ImageRecord>
    var trainInfo: ImageDataInfo
    var queryInfo: ImageDataInfo
    var galleryInfo: ImageDataInfo

    /** The statistics are those of the lists stored beside them. */
    ghost predicate StatisticsConsistent()
      reads this
    {
      && trainInfo == imagedataInfo(train)
      && queryInfo == imagedataInfo(query)
      && galleryInfo == imagedataInfo(gallery)
    }

    /** The paths `_check_before_run` probes, in the order it probes them. */
    function RequiredPaths(): (paths: seq<string>)
      ensures |paths| == 3
    {
      [datasetDir, trainDir, trainLabel]
    }

    /** Path construction at the start of `__init__`. The lists are empty
        until `Load` fills them. */
    constructor (root: string, imagedataInfo: seq<ImageRecord> -> ImageDataInfo)
      ensures datasetDir == Join(root, DatasetSubdir)
      ensures trainDir == Join(datasetDir, TrainSubdir)
      ensures trainLabel == Join(datasetDir, TrainLabelName)
      ensures this.imagedataInfo == imagedataInfo
      ensures train == [] && query == [] && gallery == []
      ensures StatisticsConsistent()
    {
      datasetDir := Join(root, DatasetSubdir);
      trainDir := Join(Join(root, DatasetSubdir), TrainSubdir);
      trainLabel := Join(Join(root, DatasetSubdir), TrainLabelName);
      this.imagedataInfo := imagedataInfo;
      train, query, gallery := [], [], [];
      trainInfo, queryInfo, galleryInfo := imagedataInfo([]), imagedataInfo([]), imagedataInfo([]);
    }

    /** `_check_before_run`: passes when every required path exists, and
        otherwise fails naming the first one that does not. */
    function CheckBeforeRun(pathExists: string -> bool): (r: Outcome<LoadError>)
      ensures r.Pass? <==> forall k :: 0 <= k < 3 ==> pathExists(RequiredPaths()[k])
      ensures r.Fail? ==> exists k :: (0 <= k < 3
        && !pathExists(RequiredPaths()[k])
        && r.error == MissingPath(RequiredPaths()[k])
        && forall j :: 0 <= j < k ==> pathExists(RequiredPaths()[j]))
    {
      var paths := RequiredPaths();
      assert paths[0] == datasetDir && paths[1] == trainDir && paths[2] == trainLabel;
      if !pathExists(datasetDir) then Fail(MissingPath(datasetDir))
      else if !pathExists(trainDir) then Fail(MissingPath(trainDir))
      else if !pathExists(trainLabel) then Fail(MissingPath(trainLabel))
      else Pass
    }

    /** `_process_dir`: the records of the label file's lines, in order, or
        the error of the first line that does not parse. */
    method ProcessDir(lines: seq<string>) returns (r: Result<seq<ImageRecord>, LoadError>)
      ensures r == ParseLabels(datasetDir, lines)
    {
      var data: seq<ImageRecord> := [];
      var i := 0;
      while i < |lines|
        invariant 0 <= i <= |lines|
        invariant ParseLabels(datasetDir, lines[..i]) == Success(data)
      {
        assert lines[..i + 1][..i] == lines[..i];
        match ParseLine(datasetDir, lines[i]) {
          case Failure(e) =>
            ParseLabelsPrefixFailure(datasetDir, lines, i + 1);
            return Failure(e);
          case Success(record) =>
            data := data + [record];
        }
        i := i + 1;
      }
      assert lines[..i] == lines;
      return Success(data);
    }

    /** The rest of `__init__`: check the paths, parse the label file, and
        store the three splits and their statistics. Nothing is parsed when
        a path is missing, and nothing is stored when anything fails. */
    method Load(pathExists: string -> bool, lines: seq<string>) returns (r: Outcome<LoadError>)
      modifies this
      ensures CheckBeforeRun(pathExists).Fail? ==> r == CheckBeforeRun(pathExists)
      ensures CheckBeforeRun(pathExists).Pass? && ParseLabels(datasetDir, lines).Failure?
        ==> r == Fail(ParseLabels(datasetDir, lines).error)
      ensures r.Pass? <==> CheckBeforeRun(pathExists).Pass? && ParseLabels(datasetDir, lines).Success?
      ensures r.Fail? ==> unchanged(this)
      ensures r.Pass? ==> && Success(train) == ParseLabels(datasetDir, lines)
                          && query == [] && gallery == []
                          && StatisticsConsistent()
    {
      r := CheckBeforeRun(pathExists);
      if r.Fail? {
        return;
      }
      var parsed := ProcessDir(lines);
      if parsed.Failure? {
        return Fail(parsed.error);
      }
      var trainList, queryList, galleryList := parsed.value, [], [];
      train := trainList;
      query := queryList;
      gallery := galleryList;
      trainInfo := imagedataInfo(train);
      queryInfo := imagedataInfo(query);
      galleryInfo := imagedataInfo(gallery);
    }

    /** `MOT20(root)` as a whole: an adapter whose splits are loaded, or the
        error `__init__` raises, in which case no adapter exists. */
    static method Init(root: string, imagedataInfo: seq<ImageRecord> -> ImageDataInfo,
                       pathExists: string -> bool, lines: seq<string>)
      returns (r: Result<Mot20, LoadError>)
      ensures var d := Join(root, DatasetSubdir);
        r.Success? <==> && pathExists(d) && pathExists(Join(d, TrainSubdir))
                        && pathExists(Join(d, TrainLabelName)) && ParseLabels(d, lines).Success?
      ensures r.Success? ==> && fresh(r.value)
                             && r.value.datasetDir == Join(root, DatasetSubdir)
                             && r.value.trainDir == Join(Join(root, DatasetSubdir), TrainSubdir)
                             && r.value.trainLabel == Join(Join(root, DatasetSubdir), TrainLabelName)
                             && r.value.imagedataInfo == imagedataInfo
                             && Success(r.value.train) == ParseLabels(r.value.datasetDir, lines)
                             && r.value.query == [] && r.value.gallery == []
                             && r.value.trainInfo == imagedataInfo(r.value.train)
                             && r.value.StatisticsConsistent()
      ensures r.Failure? ==> var d := Join(root, DatasetSubdir);
        var paths := [d, Join(d, TrainSubdir), Join(d, TrainLabelName)];
        || (exists k :: (0 <= k < 3
              && !pathExists(paths[k])
              && r.error == MissingPath(paths[k])
              && forall j :: 0 <= j < k ==> pathExists(paths[j])))
        || (&& (forall k :: 0 <= k < 3 ==> pathExists(paths[k]))
            && ParseLabels(d, lines) == Failure(r.error))
    {
      var adapter := new Mot20(root, imagedataInfo);
      assert adapter.RequiredPaths() == [Join(root, DatasetSubdir),
        Join(Join(root, DatasetSubdir), TrainSubdir), Join(Join(root, DatasetSubdir), TrainLabelName)];
      var outcome := adapter.Load(pathExists, lines);
      if outcome.Fail? {
        return Failure(outcome.error);
      }
      return Success(adapter);
    }
  }

  /** The three paths hang off `root` as `MOT20/images`, its `train`
      subdirectory and the label file `train.txt` inside it; they are
      pairwise distinct. */
  lemma Layout(root: string)
    ensures var d := Join(root, DatasetSubdir);
      && Join(d, TrainSubdir) == Join(root, "MOT20/images/train")
      && Join(d, TrainLabelName) == Join(root, "MOT20/images/train.txt")
      && Join(d, TrainSubdir) == d + "/train"
      && Join(d, TrainLabelName) == d + "/train.txt"
      && d != Join(d, TrainSubdir) && d != Join(d, TrainLabelName)
      && Join(d, TrainSubdir) != Join(d, TrainLabelName)
    ensures root == "" ==> Join(root, DatasetSubdir) == "MOT20/images"
  {
  }
}
