/** Flags, defaults, XML tag names and severity names of the tool. */
module Constants {

  /** TCP port of Eventd. */
  const DEFAULT_EVENT_PORT: int := 5817
  /** The OpenNMS server with a running Eventd. */
  const DEFAULT_OPENNMS_SERVER: string := "localhost"
  /** The fixed text of the event's `source` element. */
  const SOURCE_NAME: string := "jsendevent"
  /** Number of command-line arguments that asks for the help text. */
  const NO_ARGS: int := 0

  // Command-line switches
  const PARM_UEI: string := "-u"
  const PARM_HOST: string := "-h"
  const PARM_SERVICE: string := "-s"
  const PARM_NODEID: string := "-n"
  const PARM_INTERFACE: string := "-i"
  const PARM_DESCRIPTION: string := "-d"
  const PARM_SEVERITY: string := "-x"
  const PARM_ARG: string := "-p"
  const PARM_OPERINSTRUCT: string := "-o"
  const PARM_PORT_EVENTD: string := "-t"
  const PARM_VERBOSE: string := "-v"

  // Tags of the event document
  const EVENT_XMLTAG_LOG: string := "log"
  const EVENT_XMLTAG_EVENTS: string := "events"
  const EVENT_XMLTAG_EVENT: string := "event"
  const EVENT_XMLTAG_UEI: string := "uei"
  const EVENT_XMLTAG_SOURCE: string := "source"
  const EVENT_XMLTAG_NODEID: string := "nodeid"
  const EVENT_XMLTAG_INTERFACE: string := "interface"
  const EVENT_XMLTAG_TIME: string := "time"
  const EVENT_XMLTAG_SERVICE: string := "service"
  const EVENT_XMLTAG_SEVERITY: string := "severity"
  const EVENT_XMLTAG_HOST: string := "host"
  const EVENT_XMLTAG_DESCRIPTION: string := "descr"
  const EVENT_XMLTAG_OPERINSTRUCT: string := "operinstruct"
  const EVENT_XMLTAG_PARMS: string := "parms"
  const EVENT_XMLTAG_PARM: string := "parm"
  const EVENT_XMLTAG_PARMNAME: string := "parmName"
  const EVENT_XMLTAG_VALUE: string := "value"

  // Severity names
  const SEVERITY_UNDEF: string := "undef"
  const SEVERITY_INDETERMINATE: string := "Indeterminate"
  const SEVERITY_CLEARED: string := "Cleared"
  const SEVERITY_NORMAL: string := "Normal"
  const SEVERITY_WARNING: string := "Warning"
  const SEVERITY_MINOR: string := "Minor"
  const SEVERITY_MAJOR: string := "Major"
  const SEVERITY_CRITICAL: string := "Critical"
}
