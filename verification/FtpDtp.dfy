/**
 QFtpDTP as far as uploads use it: an object whose slots change its fields in place, refining
 the functions of FtpUpload.
 */
module FtpDtp {
  import opened FtpUpload

  /** The fields of QFtpDTP that uploads use, with its device and socket. */
  class QFtpDtp {
    var source: Source
    var device: Dev
    var link: Link
    var written: seq<Byte>
    var flushed: nat
    var callWriteData: bool
    var bytesDone: nat
    var bytesTotal: nat
    ghost var progress: seq<Progress>
    ghost var ended: bool
    ghost var failed: bool

    ghost function View(): Upload
      reads this
    {
      Upload(source, device, link, written, flushed, callWriteData, bytesDone, bytesTotal,
             progress, ended, failed)
    }

    constructor ()
      ensures View() == Upload(Cleared, Dev([], 0, false), Absent, [], 0, false, 0, 0, [], false, false)
    {
      source, device, link := Cleared, Dev([], 0, false), Absent;
      written, flushed, callWriteData, bytesDone, bytesTotal := [], 0, false, 0, 0;
      progress, ended, failed := [], false, false;
    }

    method DataTransferProgress(done: nat)
      modifies this`progress
      ensures View() == Emit(old(View()), done)
    {
      progress := progress + [Progress(done, bytesTotal)];
    }

    method SetBytesTotal(bytes: nat)
      modifies this
      ensures View() == FtpUpload.SetBytesTotal(old(View()), bytes)
    {
      bytesTotal := bytes;
      bytesDone := 0;
      DataTransferProgress(bytesDone);
    }

    method Close()
      modifies this`link, this`ended
      ensures View() == old(View()).(link := Closing, ended := true)
    {
      link := Closing;
      ended := true;
    }

    method ClearData()
      modifies this`source
      ensures View() == old(View()).(source := Cleared)
    {
      source := Cleared;
    }

    /** `read` is what the device answers, if it is asked. */
    method WriteData(read: Read)
      requires source.Device? ==> Answers(device, read)
      modifies this
      ensures View() == FtpUpload.WriteData(old(View()), read)
    {
      if link.Absent? {
        return;
      }
      if source.Array? {
        if source.bytes == [] {
          DataTransferProgress(0);
        } else {
          written := written + source.bytes;
        }
        Close();
        ClearData();
      } else if source.Device? {
        callWriteData := false;
        if read.Got? && read.count > 0 {
          written := written + device.content[device.pos..device.pos + read.count];
          device := device.(pos := device.pos + read.count);
        } else if read.Failed? || (!device.sequential && device.pos == |device.content|) {
          if bytesDone == 0 && flushed == |written| {
            DataTransferProgress(0);
          }
          Close();
          ClearData();
          failed := read.Failed?;
        }
        callWriteData := source.Device?;
      }
    }

    method SocketBytesWritten(bytes: nat, read: Read)
      requires source.Device? ==> Answers(device, read)
      modifies this
      ensures View() == FtpUpload.SocketBytesWritten(old(View()), bytes, read)
    {
      bytesDone := bytesDone + bytes;
      DataTransferProgress(bytesDone);
      if callWriteData {
        WriteData(read);
      }
    }

    method SocketConnected()
      modifies this`bytesDone
      ensures View() == FtpUpload.SocketConnected(old(View()))
    {
      bytesDone := 0;
    }

    method SocketConnectionClosed()
      modifies this`source
      ensures View() == FtpUpload.SocketConnectionClosed(old(View()))
    {
      if source.Device? {
        ClearData();
      }
    }
  }
}
