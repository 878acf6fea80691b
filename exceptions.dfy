/**
 * The error record of the capture library (exception/AbstractException.java) and the
 * subclasses that only fix its error code.
 */
module Exceptions {
  import opened Wrappers

  /** Code of an exception built with the default constructor. */
  const UnknownErrorCode := "error.unknown"
  /** Code fixed by the no-argument DeviceStateException constructor. */
  const DeviceStateErrorCode := "error.device.state"
  /** Code fixed by InvalidDeviceBuffer. */
  const InvalidDeviceBufferErrorCode := "error.capture.invalid.device.buffer.type"
  /** Code fixed by NoDeviceFoundException. */
  const NoDeviceFoundErrorCode := "error.no.device.found"
  /** Code the base CaptureDevice passes when pause or resume is called on a stopped device. */
  const AlreadyStoppedErrorCode := "error.device.already.stopped"

  /** The concrete subclass an exception object was created as. */
  datatype ExceptionKind = DeviceStateException | InvalidDeviceBuffer | NoDeviceFoundException

  /** Exceptions of the Java platform that the device code raises. */
  datatype JavaException = IllegalArgumentException(message: string) | NullPointerException

  /** An error code plus the arguments used to fill in its localized message. */
  class AbstractException {
    const kind: ExceptionKind
    var errorCode: string
    /** None stands for a null argument array. */
    var args: Option<seq<string>>

    /** The default constructor: the field initializers alone. */
    constructor (kind: ExceptionKind)
      ensures this.kind == kind
      ensures GetErrorCode() == UnknownErrorCode && GetArgs() == None
    {
      this.kind := kind;
      errorCode := UnknownErrorCode;
      args := None;
    }

    /** The code-only constructor. */
    constructor WithCode(kind: ExceptionKind, errorCode: string)
      ensures this.kind == kind
      ensures GetErrorCode() == errorCode && GetArgs() == None
    {
      this.kind := kind;
      this.errorCode := errorCode;
      args := None;
    }

    /** The code-and-arguments constructor. */
    constructor WithCodeAndArgs(kind: ExceptionKind, errorCode: string, args: Option<seq<string>>)
      ensures this.kind == kind
      ensures GetErrorCode() == errorCode && GetArgs() == args
    {
      this.kind := kind;
      this.errorCode := errorCode;
      this.args := args;
    }

    method SetErrorCode(errorCode: string)
      modifies this
      ensures GetErrorCode() == errorCode
      ensures GetArgs() == old(GetArgs())
    {
      this.errorCode := errorCode;
    }

    function GetErrorCode(): string
      reads this
    {
      errorCode
    }

    method SetArgs(args: Option<seq<string>>)
      modifies this
      ensures GetArgs() == args
      ensures GetErrorCode() == old(GetErrorCode())
    {
      this.args := args;
    }

    function GetArgs(): Option<seq<string>>
      reads this
    {
      args
    }
  }

  /** new DeviceStateException() */
  method NewDeviceStateException() returns (e: AbstractException)
    ensures fresh(e) && e.kind == DeviceStateException
    ensures e.errorCode == DeviceStateErrorCode && e.args == None
  {
    e := new AbstractException.WithCode(DeviceStateException, DeviceStateErrorCode);
  }

  /** new DeviceStateException(errorCode) */
  method NewDeviceStateExceptionWithCode(errorCode: string) returns (e: AbstractException)
    ensures fresh(e) && e.kind == DeviceStateException
    ensures e.errorCode == errorCode && e.args == None
  {
    e := new AbstractException.WithCode(DeviceStateException, errorCode);
  }

  /** new InvalidDeviceBuffer(args) */
  method NewInvalidDeviceBuffer(args: Option<seq<string>>) returns (e: AbstractException)
    ensures fresh(e) && e.kind == InvalidDeviceBuffer
    ensures e.errorCode == InvalidDeviceBufferErrorCode && e.args == args
  {
    e := new AbstractException.WithCodeAndArgs(InvalidDeviceBuffer, InvalidDeviceBufferErrorCode, args);
  }

  /** new NoDeviceFoundException() */
  method NewNoDeviceFoundException() returns (e: AbstractException)
    ensures fresh(e) && e.kind == NoDeviceFoundException
    ensures e.errorCode == NoDeviceFoundErrorCode && e.args == None
  {
    e := new AbstractException.WithCode(NoDeviceFoundException, NoDeviceFoundErrorCode);
  }
}
