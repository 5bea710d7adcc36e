/**
 * The `Scanner` component of src/Scanner.tsx and the module-level
 * `codeReader` it shares across all its instances. zxing's reader is
 * abstracted to the state it is in; every reader ever created is kept, in
 * creation order, so that what happens to earlier readers stays visible.
 */
module Scanner {
  import opened Wrappers

  /** A `MediaDeviceInfo` from `listVideoInputDevices`. */
  datatype VideoInputDevice = VideoInputDevice(deviceId: string, deviceLabel: string)

  /** What `listVideoInputDevices` delivers: the device list, or a rejection. */
  datatype Enumeration = Devices(list: seq<VideoInputDevice>) | EnumerationFailed(reason: string)

  /** Which `onRead` callback a `Scanner` instance was given. */
  datatype OnRead = ReadDataMatrix | ReadQrCode

  /** The abstract state of one `BrowserMultiFormatReader`. */
  datatype ReaderState =
    | Created                                      // constructed, not decoding
    | Decoding(deviceId: string, onRead: OnRead)   // delivering frames from a device to a callback
    | Reset                                        // `reset()` was called on it

  /** Device selection of `startCamera`: the last device enumerated, if any. */
  function SelectDevice(devices: seq<VideoInputDevice>): (id: Option<string>)
    ensures id.None? <==> devices == []
  {
    if devices == [] then None else Some(devices[|devices| - 1].deviceId)
  }

  /**
   * The state a fresh reader reaches in `startCamera`, given what
   * enumeration delivers and whether `decodeFromVideoDevice` rejects.
   */
  function StartedState(e: Enumeration, bindError: Option<string>, onRead: OnRead): (st: ReaderState)
    ensures st.Decoding? <==> e.Devices? && e.list != [] && bindError.None?
    ensures st.Decoding? ==> SelectDevice(e.list) == Some(st.deviceId) && st.onRead == onRead
    ensures st != Reset
  {
    match e
    case EnumerationFailed(_) => Created
    case Devices(list) =>
      match SelectDevice(list)
      case None => Created
      case Some(id) => if bindError.None? then Decoding(id, onRead) else Created
  }

  /** What `startCamera`'s `catch` hands to `console.error`, if anything. */
  function StartError(e: Enumeration, bindError: Option<string>): (logged: Option<string>)
    ensures logged.Some? <==> e.EnumerationFailed? || (e.list != [] && bindError.Some?)
    ensures e.EnumerationFailed? ==> logged == Some(e.reason)
    ensures e.Devices? && e.list != [] ==> logged == bindError
  {
    match e
    case EnumerationFailed(reason) => Some(reason)
    case Devices(list) => if list != [] then bindError else None
  }

  /** The readers after `stopCamera`: the current one, if any, is reset. */
  function Stopped(readers: seq<ReaderState>, current: Option<nat>): (rs: seq<ReaderState>)
    requires current.Some? ==> current.value < |readers|
    ensures |rs| == |readers|
    ensures forall i :: 0 <= i < |readers| && Some(i) != current ==> rs[i] == readers[i]
    ensures current.Some? ==> rs[current.value] == Reset
  {
    if current.Some? then readers[current.value := Reset] else readers
  }

  /** The last enumerated device is chosen, whatever comes before it. */
  lemma LastDeviceWins(earlier: seq<VideoInputDevice>, last: VideoInputDevice)
    ensures SelectDevice(earlier + [last]) == Some(last.deviceId)
  {
  }

  /** An empty device list never starts decoding, and nothing is logged for it. */
  lemma EmptyListStartsNothing(bindError: Option<string>, onRead: OnRead)
    ensures StartedState(Devices([]), bindError, onRead) == Created
    ensures StartError(Devices([]), bindError) == None
  {
  }

  /** Stopping twice is the same as stopping once. */
  lemma StopIdempotent(readers: seq<ReaderState>, current: Option<nat>)
    requires current.Some? ==> current.value < |readers|
    ensures Stopped(Stopped(readers, current), current) == Stopped(readers, current)
  {
  }

  /** A reader that was not the current one is never reset by `stopCamera`. */
  lemma StopSparesEarlierReaders(readers: seq<ReaderState>, i: nat)
    requires i + 1 < |readers|
    ensures Stopped(readers, Some(|readers| - 1))[i] == readers[i]
  {
  }

  /** The module-level `codeReader` together with every reader it has ever held. */
  class ScannerModule {
    /** Every reader created so far, oldest first. */
    var readers: seq<ReaderState>
    /** The index in `readers` the module variable `codeReader` refers to; None while unset. */
    var codeReader: Option<nat>
    /** Messages passed to `console.error`. */
    var errorLog: seq<string>

    /** `codeReader` is unset until the first start, and then always the newest reader. */
    ghost predicate Valid()
      reads this
    {
      codeReader == (if readers == [] then None else Some(|readers| - 1))
    }

    /** Module load: `let codeReader` starts out undefined. */
    constructor ()
      ensures Valid() && readers == [] && codeReader == None && errorLog == []
    {
      readers, codeReader, errorLog := [], None, [];
    }

    /**
     * `startCamera`: always creates a new reader and overwrites `codeReader`
     * with it, without resetting the previous one; then binds the last
     * enumerated device. Failures are logged, never raised.
     */
    method StartCamera(e: Enumeration, bindError: Option<string>, onRead: OnRead)
      requires Valid()
      modifies this
      ensures Valid()
      ensures readers == old(readers) + [StartedState(e, bindError, onRead)]
      ensures codeReader == Some(|old(readers)|)
      ensures errorLog == old(errorLog) + (match StartError(e, bindError) case Some(m) => [m] case None => [])
    {
      readers := readers + [Created];
      codeReader := Some(|readers| - 1);
      match e
      case EnumerationFailed(reason) =>
        errorLog := errorLog + [reason];
      case Devices(list) =>
        if |list| == 0 {
          return;
        }
        var deviceId := list[|list| - 1].deviceId;
        match bindError
        case Some(m) =>
          errorLog := errorLog + [m];
        case None =>
          readers := readers[|readers| - 1 := Decoding(deviceId, onRead)];
    }

    /** `stopCamera`: resets the reader `codeReader` holds, if it holds one. */
    method StopCamera()
      requires Valid()
      modifies this`readers
      ensures Valid()
      ensures readers == Stopped(old(readers), codeReader)
      ensures old(codeReader) == None ==> readers == old(readers)
    {
      if codeReader.Some? {
        readers := readers[codeReader.value := Reset];
      }
    }

    /** The dialog's `onOpenChange`: closing stops the camera, opening does nothing. */
    method OnOpenChange(open: bool)
      requires Valid()
      modifies this`readers
      ensures Valid()
      ensures open ==> readers == old(readers)
      ensures !open ==> readers == Stopped(old(readers), codeReader)
    {
      if !open {
        StopCamera();
      }
    }

    /** The dialog trigger's `onClick`, the only place a camera is started. */
    method OnTriggerClick(e: Enumeration, bindError: Option<string>, onRead: OnRead)
      requires Valid()
      modifies this
      ensures Valid()
      ensures readers == old(readers) + [StartedState(e, bindError, onRead)]
      ensures codeReader == Some(|old(readers)|)
      ensures errorLog == old(errorLog) + (match StartError(e, bindError) case Some(m) => [m] case None => [])
    {
      StartCamera(e, bindError, onRead);
    }
  }
}
