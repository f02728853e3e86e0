/**
 * The port and network descriptors the host framework hands to the driver,
 * reduced to the keys the driver reads, and the framework constants it uses.
 */
module Neutron {
  import opened Common

  /** `portbindings.VNIC_BAREMETAL` */
  const VnicBaremetal: string := "baremetal"
  /** `portbindings.VIF_TYPE_OTHER` */
  const VifTypeOther: string := "other"
  /** `resources.PORT` */
  const PortResource: string := "port"

  /**
   * A key of a link dictionary read with `.get(key, '')`: absent (the
   * default `''` is used), present and None, or present with a string.
   */
  datatype IdField = Absent | ExplicitNone | Given(value: string)

  /**
   * One element of `port['binding:profile']['local_link_information']`.
   * `switch_id` keeps all three states, because `.upper()` on an explicit
   * None raises; for `switch_info` and `port_id`, read with `.get(key)`, an
   * absent key and None are the same.
   */
  datatype LinkInfo = LinkInfo(switchId: IdField, switchInfo: Option<string>, portId: Option<string>)

  /**
   * A port: `id`, `binding:vnic_type`, `binding:vif_type` and the local-link
   * list of its binding profile (an absent or None list is the empty list:
   * all three are falsy and are treated alike).
   */
  datatype Port = Port(id: string, vnicType: string, vifType: string, localLinkInfo: seq<LinkInfo>)

  /** A network: `id`, `provider:network_type`, `provider:segmentation_id` (may be None or ''). */
  datatype Network = Network(id: string, networkType: string, segmentationId: Option<string>)

  /** A segment of `context.segments_to_bind`; only its `api.ID` is read. */
  datatype Segment = Segment(id: string)
}
