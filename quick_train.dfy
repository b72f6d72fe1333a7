/** `quick_train.py`: before training, check that the cases file exists and
    that the upload directory holds at least one image, judged by the file
    name's extension; train only when the check passes. */
module QuickTrain {
  import opened Common
  import opened Text
  import DermatologyCnn

  /** The extensions `check_training_data` accepts, compared in lower case. */
  predicate IsImageFile(name: string)
  {
    var lowered := Lower(name);
    EndsWith(lowered, ".jpg") || EndsWith(lowered, ".jpeg") || EndsWith(lowered, ".png")
  }

  /** How many of `names` are image files. */
  function ImageCount(names: seq<string>): nat
  {
    if names == [] then 0
    else (if IsImageFile(names[0]) then 1 else 0) + ImageCount(names[1..])
  }

  lemma {:induction false} ImageCountAppend(a: seq<string>, b: seq<string>)
    ensures ImageCount(a + b) == ImageCount(a) + ImageCount(b)
  {
    if a == [] {
      assert a + b == b;
    } else {
      assert (a + b)[0] == a[0];
      assert (a + b)[1..] == a[1..] + b;
      ImageCountAppend(a[1..], b);
    }
  }

  /** The count is at most the number of names, and it is zero exactly when
      no name is an image file. */
  lemma {:induction false} ImageCountZero(names: seq<string>)
    ensures ImageCount(names) <= |names|
    ensures ImageCount(names) == 0 <==> forall n :: n in names ==> !IsImageFile(n)
  {
    if names != [] {
      ImageCountZero(names[1..]);
      assert names == [names[0]] + names[1..];
    }
  }

  /** The extension test ignores case. */
  lemma UpperCaseExtensionCounts()
    ensures IsImageFile("A.JPG")
    ensures IsImageFile("scan.Jpeg")
  {
    assert Lower("A.JPG") == "a.jpg";
    assert EndsWith("a.jpg", ".jpg");
    assert Lower("scan.Jpeg") == "scan.jpeg";
    assert EndsWith("scan.jpeg", ".jpeg");
  }

  /** Other extensions, and names that lack the dot, do not count. */
  lemma OtherNamesDoNotCount()
    ensures !IsImageFile("photojpg")
    ensures !IsImageFile("scan.gif")
  {
    assert Lower("photojpg") == "photojpg";
    assert "photojpg"[4] != ".jpg"[0] && "photojpg"[3] != ".jpeg"[0] && "photojpg"[4] != ".png"[0];
    assert Lower("scan.gif") == "scan.gif";
    assert "scan.gif"[3] == 'n' && "scan.gif"[5] == 'g';
  }

  /** The nested loops of `check_training_data` over the walked directories
      (`walk` holds the file names of each directory in turn). */
  method CountImageFiles(walk: seq<seq<string>>) returns (imageCount: nat)
    ensures imageCount == ImageCount(Flatten(walk))
  {
    imageCount := 0;
    var d := 0;
    while d < |walk|
      invariant 0 <= d <= |walk|
      invariant imageCount == ImageCount(Flatten(walk[..d]))
    {
      var files := walk[d];
      var f := 0;
      while f < |files|
        invariant 0 <= f <= |files|
        invariant imageCount == ImageCount(Flatten(walk[..d])) + ImageCount(files[..f])
      {
        ImageCountAppend(files[..f], [files[f]]);
        assert files[..f + 1] == files[..f] + [files[f]];
        if IsImageFile(files[f]) {
          imageCount := imageCount + 1;
        }
        f := f + 1;
      }
      assert files[..f] == files;
      FlattenAppend(walk[..d], files);
      ImageCountAppend(Flatten(walk[..d]), files);
      assert walk[..d + 1] == walk[..d] + [files];
      d := d + 1;
    }
    assert walk[..d] == walk;
  }

  /** `check_training_data`: a missing cases file fails before any image is
      looked at; otherwise the check passes exactly when some image is
      found. */
  method CheckTrainingData(casesFile: Option<seq<Case>>, walk: seq<seq<string>>) returns (ok: bool)
    ensures ok <==> casesFile.Some? && ImageCount(Flatten(walk)) > 0
  {
    if casesFile.None? {
      return false;
    }
    var imageCount := CountImageFiles(walk);
    if imageCount == 0 {
      return false;
    }
    return true;
  }

  /** The names `os.walk` finds anywhere under the upload directory. */
  function FilesIn(walk: seq<seq<string>>): set<string>
  {
    set name | name in Flatten(walk)
  }

  /** `start_optimized_training`: a fresh classifier trained on the cases.
      `importFails` stands for the framework import failing before anything
      is built; `splitFails`, `buildFails` and `fitFails` are passed on to
      `train_model`, where the classifier is fresh, so a failing build always
      fails the run, as do more distinct diagnoses than classes. */
  method StartOptimizedTraining(casesFile: Option<seq<Case>>, walk: seq<seq<string>>, readable: set<string>,
                                importFails: bool, splitFails: bool, buildFails: bool, fitFails: bool)
    returns (ok: bool)
    ensures ok <==> !importFails && casesFile.Some?
                    && |DermatologyCnn.Prepared(casesFile.value, FilesIn(walk), readable)| > 0
                    && DermatologyCnn.LabelsEncodable(DermatologyCnn.Prepared(casesFile.value, FilesIn(walk), readable))
                    && !splitFails && !buildFails && !fitFails
  {
    if importFails {
      return false;
    }
    var cnn := new DermatologyCnn.DermatologyCNN();
    var outcome := cnn.TrainModel(casesFile, FilesIn(walk), readable, splitFails, buildFails, fitFails);
    return outcome.Trained?;
  }

  /** `main`: training starts only when the data check passes. */
  method TrainWhenDataReady(casesFile: Option<seq<Case>>, walk: seq<seq<string>>, readable: set<string>,
                            importFails: bool, splitFails: bool, buildFails: bool, fitFails: bool)
    returns (ok: bool)
    ensures ok <==> casesFile.Some? && ImageCount(Flatten(walk)) > 0 && !importFails
                    && |DermatologyCnn.Prepared(casesFile.value, FilesIn(walk), readable)| > 0
                    && DermatologyCnn.LabelsEncodable(DermatologyCnn.Prepared(casesFile.value, FilesIn(walk), readable))
                    && !splitFails && !buildFails && !fitFails
  {
    var dataOk := CheckTrainingData(casesFile, walk);
    if !dataOk {
      return false;
    }
    ok := StartOptimizedTraining(casesFile, walk, readable, importFails, splitFails, buildFails, fitFails);
  }
}
