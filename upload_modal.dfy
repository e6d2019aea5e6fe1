/** The upload modal: checks the submitted form in a fixed order, then
    uploads the song file and the image file under names that share one
    unique id, then inserts the `songs` row; each step aborts the rest when it
    fails. The two storage buckets and the table are abstract stores; what
    each call answers is an input. */
module UploadModal {
  import opened Common

  /** A file picked in a file input (its content is opaque). */
  datatype File = File(name: string)

  /** The form's values; an unpicked file input is an empty file list. */
  datatype FormValues = FormValues(author: string, title: string, song: seq<File>, image: seq<File>)

  /** The form's `defaultValues`, which `reset()` restores. */
  const DefaultValues := FormValues("", "", [], [])

  /** A row of the `songs` table. */
  datatype SongRow = SongRow(userId: string, title: string, author: string, imagePath: string, songPath: string)

  /** The "songs" bucket, the "images" bucket and the `songs` table. */
  datatype Stores = Stores(songs: map<string, File>, images: map<string, File>, table: seq<SongRow>)

  /** A write the submission sends to the stores. */
  datatype StoreCall = UploadSong(path: string, file: File) | UploadImage(path: string, file: File) | InsertSong(row: SongRow)

  /** What a store call answers: success, an error value, or a thrown exception. */
  datatype StepResult = Ok | Failed(message: string) | Threw(message: string)

  /** The effect of one accepted write. */
  function ApplyCall(st: Stores, c: StoreCall): Stores {
    match c
    case UploadSong(path, file) => st.(songs := st.songs[path := file])
    case UploadImage(path, file) => st.(images := st.images[path := file])
    case InsertSong(row) => st.(table := st.table + [row])
  }

  /** The effect of a series of accepted writes, in order. */
  function Apply(st: Stores, calls: seq<StoreCall>): Stores
    decreases |calls|
  {
    if calls == [] then st else Apply(ApplyCall(st, calls[0]), calls[1..])
  }

  /** The rows a series of writes inserts, in order. */
  function InsertedRows(calls: seq<StoreCall>): seq<SongRow> {
    if calls == [] then []
    else (if calls[0].InsertSong? then [calls[0].row] else []) + InsertedRows(calls[1..])
  }

  /** Writes applied one after another compose. */
  lemma {:induction false} ApplyAppend(st: Stores, a: seq<StoreCall>, b: seq<StoreCall>)
    ensures Apply(st, a + b) == Apply(Apply(st, a), b)
    decreases |a|
  {
    if a == [] {
      assert a + b == b;
    } else {
      assert (a + b)[0] == a[0];
      assert (a + b)[1..] == a[1..] + b;
      ApplyAppend(ApplyCall(st, a[0]), a[1..], b);
    }
  }

  /** The table grows by exactly the inserted rows; uploads leave it alone. */
  lemma {:induction false} ApplyTable(st: Stores, calls: seq<StoreCall>)
    ensures Apply(st, calls).table == st.table + InsertedRows(calls)
    decreases |calls|
  {
    if calls != [] {
      ApplyTable(ApplyCall(st, calls[0]), calls[1..]);
    }
  }

  /** The checks of `onSubmit`, in source order: the message of the first
      one that fails, if any. */
  function Validate(user: Option<User>, values: FormValues): (r: Option<string>)
    ensures r.None? <==>
      user.Some? && values.image != [] && values.song != [] && values.title != "" && values.author != ""
    ensures user.None? ==> r == Some("Must be logged in")
    ensures user.Some? && values.image == [] ==> r == Some("Image file is required")
    ensures user.Some? && values.image != [] && values.song == [] ==> r == Some("Song file is required")
    ensures user.Some? && values.image != [] && values.song != [] && (values.title == "" || values.author == "") ==>
      r == Some("Title and author are required")
  {
    if user.None? then Some("Must be logged in")
    else if values.image == [] then Some("Image file is required")
    else if values.song == [] then Some("Song file is required")
    else if values.title == "" || values.author == "" then Some("Title and author are required")
    else None
  }

  function SongPath(title: string, uid: string): string {
    "song-" + title + "-" + uid
  }

  function ImagePath(title: string, uid: string): string {
    "image-" + title + "-" + uid
  }

  /** The three writes of a valid submission, in order. The returned upload
      path of a stored object is the name it was uploaded under. */
  function Plan(user: User, values: FormValues, uid: string): (p: seq<StoreCall>)
    requires values.song != [] && values.image != []
    ensures |p| == 3 && p[0].UploadSong? && p[1].UploadImage? && p[2].InsertSong?
    // the first picked file of each input, under names built from the title and one shared id
    ensures p[0] == UploadSong(SongPath(values.title, uid), values.song[0])
    ensures p[1] == UploadImage(ImagePath(values.title, uid), values.image[0])
    // the row records the user, the title, the author and the two paths the uploads returned
    ensures p[2].row == SongRow(user.id, values.title, values.author, p[1].path, p[0].path)
  {
    var songPath := SongPath(values.title, uid);
    var imagePath := ImagePath(values.title, uid);
    [UploadSong(songPath, values.song[0]),
     UploadImage(imagePath, values.image[0]),
     InsertSong(SongRow(user.id, values.title, values.author, imagePath, songPath))]
  }

  /** An upload with `upsert: false`: an existing path is refused whatever
      else the store would have answered. */
  function UploadResult(bucket: map<string, File>, path: string, r: StepResult): StepResult {
    if path in bucket && r.Ok? then Failed("The resource already exists") else r
  }

  /** The toast of a failed step: its own text for an error value, the
      `catch` block's text for a thrown exception. */
  function FailureNotice(r: StepResult, errorText: string): Toast
    requires !r.Ok?
  {
    if r.Failed? then ErrorToast(errorText) else ErrorToast("Something went wrong: " + r.message)
  }

  /** What one submission does: the writes it issues, the writes the stores
      accept, the toast it shows and whether it completed. */
  datatype Submission = Submission(issued: seq<StoreCall>, applied: seq<StoreCall>, notice: Toast, completed: bool)

  /** `onSubmit` against the stores `st`, with `uid` the fresh unique id and
      `song`, `image`, `insert` what the three store calls answer. */
  function Submit(st: Stores, user: Option<User>, values: FormValues, uid: string,
                  song: StepResult, image: StepResult, insert: StepResult): (s: Submission)
    // a failed check issues nothing and reports the first failing check
    ensures Validate(user, values).Some? ==>
      s == Submission([], [], ErrorToast(Validate(user, values).value), false)
    // otherwise the issued writes are a prefix of the plan, and all but a failing last one are applied
    ensures Validate(user, values).None? ==>
      |s.issued| >= 1 && s.issued <= Plan(user.value, values, uid) &&
      s.applied == s.issued[..|s.issued| - (if s.completed then 0 else 1)]
    // a song upload that fails stops before the image upload
    ensures Validate(user, values).None? ==>
      (|s.issued| == 1 <==> !UploadResult(st.songs, SongPath(values.title, uid), song).Ok?)
    // an image upload that fails stops before the insert
    ensures Validate(user, values).None? ==>
      (|s.issued| == 2 <==>
         UploadResult(st.songs, SongPath(values.title, uid), song).Ok? &&
         !UploadResult(st.images, ImagePath(values.title, uid), image).Ok?)
    ensures s.completed <==>
      Validate(user, values).None? && |s.issued| == 3 && insert.Ok?
    ensures Validate(user, values).None? && |s.issued| == 1 ==>
      s.notice == FailureNotice(UploadResult(st.songs, SongPath(values.title, uid), song), "Failed to upload song file")
    ensures Validate(user, values).None? && |s.issued| == 2 ==>
      s.notice == FailureNotice(UploadResult(st.images, ImagePath(values.title, uid), image), "Failed to upload image file")
    ensures Validate(user, values).None? && |s.issued| == 3 && !insert.Ok? ==>
      s.notice == FailureNotice(insert, insert.message)
    ensures s.completed ==> s.notice == SuccessToast("Song uploaded successfully")
    // a completed submission never overwrote a stored object
    ensures s.completed ==>
      SongPath(values.title, uid) !in st.songs && ImagePath(values.title, uid) !in st.images
  {
    match Validate(user, values)
    case Some(message) => Submission([], [], ErrorToast(message), false)
    case None =>
      var plan := Plan(user.value, values, uid);
      var songResult := UploadResult(st.songs, SongPath(values.title, uid), song);
      if !songResult.Ok? then
        Submission(plan[..1], [], FailureNotice(songResult, "Failed to upload song file"), false)
      else
        var imageResult := UploadResult(st.images, ImagePath(values.title, uid), image);
        if !imageResult.Ok? then
          Submission(plan[..2], plan[..1], FailureNotice(imageResult, "Failed to upload image file"), false)
        else if !insert.Ok? then
          Submission(plan, plan[..2], FailureNotice(insert, insert.message), false)
        else
          Submission(plan, plan, SuccessToast("Song uploaded successfully"), true)
  }

  /** Only a completed submission adds a row to the `songs` table, and then
      exactly the planned one; every other path leaves the table as it was. */
  lemma OnlyCompletedSubmissionInserts(st: Stores, user: Option<User>, values: FormValues, uid: string,
                                       song: StepResult, image: StepResult, insert: StepResult)
    ensures var s := Submit(st, user, values, uid, song, image, insert);
      Apply(st, s.applied).table ==
        if s.completed then st.table + [Plan(user.value, values, uid)[2].row] else st.table
  {
    var s := Submit(st, user, values, uid, song, image, insert);
    ApplyTable(st, s.applied);
    if Validate(user, values).None? {
      var plan := Plan(user.value, values, uid);
      assert InsertedRows(plan[2..]) == [plan[2].row];
      assert InsertedRows(plan[1..]) == InsertedRows(plan[2..]);
      assert InsertedRows(plan[1..][..1]) == [];
      assert InsertedRows(plan[..2]) == InsertedRows(plan[..2][1..]);
      assert plan[..2][1..] == plan[1..][..1];
    }
  }

  class Component {
    /** The upload modal store's open flag. */
    var isOpen: bool
    var isLoading: bool
    /** Every value passed to `setIsLoading`, in order. */
    ghost var loadingTrace: seq<bool>
    var values: FormValues
    var stores: Stores
    var toasts: seq<Toast>
    /** Number of `router.refresh()` calls. */
    var refreshes: nat

    constructor (isOpen: bool, stores: Stores)
      ensures this.isOpen == isOpen && this.stores == stores && values == DefaultValues
      ensures !isLoading && loadingTrace == [] && toasts == [] && refreshes == 0
    {
      this.isOpen := isOpen;
      this.stores := stores;
      values := DefaultValues;
      isLoading := false;
      loadingTrace := [];
      toasts := [];
      refreshes := 0;
    }

    /** `onChange`: closing the dialog resets the form and closes the modal;
        opening it changes nothing. */
    method OnChange(open: bool)
      modifies this
      ensures !open ==> values == DefaultValues && !isOpen
      ensures open ==> values == old(values) && isOpen == old(isOpen)
      ensures isLoading == old(isLoading) && loadingTrace == old(loadingTrace) && stores == old(stores)
      ensures toasts == old(toasts) && refreshes == old(refreshes)
    {
      if !open {
        values := DefaultValues;
        isOpen := false;
      }
    }

    /** The part of `onSubmit` after the checks passed: upload the song,
        upload the image, insert the row, stopping at the first failure. */
    method UploadAndInsert(user: User, v: FormValues, uid: string, song: StepResult, image: StepResult, insert: StepResult)
      returns (ghost cleared: seq<bool>)
      requires Validate(Some(user), v).None? && values == v
      modifies this
      ensures stores == Apply(old(stores), Submit(old(stores), Some(user), v, uid, song, image, insert).applied)
      ensures toasts == old(toasts) + [Submit(old(stores), Some(user), v, uid, song, image, insert).notice]
      ensures Submit(old(stores), Some(user), v, uid, song, image, insert).completed ==>
        refreshes == old(refreshes) + 1 && values == DefaultValues && !isOpen
      ensures !Submit(old(stores), Some(user), v, uid, song, image, insert).completed ==>
        refreshes == old(refreshes) && values == old(values) && isOpen == old(isOpen)
      // the flag is only ever cleared here
      ensures forall k :: 0 <= k < |cleared| ==> !cleared[k]
      ensures loadingTrace == old(loadingTrace) + cleared
      ensures isLoading == (old(isLoading) && cleared == [])
    {
      ghost var before := stores;
      ghost var plan := Plan(user, v, uid);
      cleared := [];
      var songPath := SongPath(v.title, uid);
      var songResult := UploadResult(stores.songs, songPath, song);
      if songResult.Threw? {
        toasts := toasts + [ErrorToast("Something went wrong: " + songResult.message)];
        return;
      }
      if songResult.Failed? {
        isLoading := false;
        loadingTrace := loadingTrace + [false];
        cleared := [false];
        toasts := toasts + [ErrorToast("Failed to upload song file")];
        return;
      }
      stores := stores.(songs := stores.songs[songPath := v.song[0]]);
      assert stores == Apply(before, plan[..1]);

      var imagePath := ImagePath(v.title, uid);
      var imageResult := UploadResult(stores.images, imagePath, image);
      if imageResult.Threw? {
        toasts := toasts + [ErrorToast("Something went wrong: " + imageResult.message)];
        return;
      }
      if imageResult.Failed? {
        isLoading := false;
        loadingTrace := loadingTrace + [false];
        cleared := [false];
        toasts := toasts + [ErrorToast("Failed to upload image file")];
        return;
      }
      ApplyAppend(before, plan[..1], [plan[1]]);
      assert plan[..2] == plan[..1] + [plan[1]];
      stores := stores.(images := stores.images[imagePath := v.image[0]]);

      var row := SongRow(user.id, v.title, v.author, imagePath, songPath);
      if insert.Threw? {
        toasts := toasts + [ErrorToast("Something went wrong: " + insert.message)];
        return;
      }
      if insert.Failed? {
        isLoading := false;
        loadingTrace := loadingTrace + [false];
        cleared := [false];
        toasts := toasts + [ErrorToast(insert.message)];
        return;
      }
      ApplyAppend(before, plan[..2], [plan[2]]);
      assert plan == plan[..2] + [plan[2]];
      stores := stores.(table := stores.table + [row]);
      refreshes := refreshes + 1;
      isLoading := false;
      loadingTrace := loadingTrace + [false];
      cleared := [false];
      values := DefaultValues;
      isOpen := false;
      toasts := toasts + [SuccessToast("Song uploaded successfully")];
    }

    /** `onSubmit` on the current form values. */
    method OnSubmit(user: Option<User>, uid: string, song: StepResult, image: StepResult, insert: StepResult)
      modifies this
      ensures stores == Apply(old(stores), Submit(old(stores), user, old(values), uid, song, image, insert).applied)
      ensures toasts == old(toasts) + [Submit(old(stores), user, old(values), uid, song, image, insert).notice]
      // only a completed submission refreshes, resets the form and closes the modal
      ensures Submit(old(stores), user, old(values), uid, song, image, insert).completed ==>
        refreshes == old(refreshes) + 1 && values == DefaultValues && !isOpen
      ensures !Submit(old(stores), user, old(values), uid, song, image, insert).completed ==>
        refreshes == old(refreshes) && values == old(values) && isOpen == old(isOpen)
      // the flag is raised once at the start, afterwards only cleared, and ends false
      ensures !isLoading
      ensures |loadingTrace| >= |old(loadingTrace)| + 2
      ensures loadingTrace[..|old(loadingTrace)| + 1] == old(loadingTrace) + [true]
      ensures forall k :: |old(loadingTrace)| < k < |loadingTrace| ==> !loadingTrace[k]
    {
      isLoading := true;
      loadingTrace := loadingTrace + [true];

      var v := values;
      var imageFile := if |v.image| > 0 then Some(v.image[0]) else None;
      var songFile := if |v.song| > 0 then Some(v.song[0]) else None;

      if user.None? {
        toasts := toasts + [ErrorToast("Must be logged in")];
      } else if imageFile.None? {
        toasts := toasts + [ErrorToast("Image file is required")];
      } else if songFile.None? {
        toasts := toasts + [ErrorToast("Song file is required")];
      } else if v.title == "" || v.author == "" {
        toasts := toasts + [ErrorToast("Title and author are required")];
      } else {
        ghost var cleared := UploadAndInsert(user.value, v, uid, song, image, insert);
      }

      // the `finally` block
      isLoading := false;
      loadingTrace := loadingTrace + [false];
    }
  }
}
