/**
 * The modal's configuration, after React has filled in its default props.
 * Purely presentational props (class name, style, title, width, z-index, mask
 * opacity) do not enter any decision modelled here and are not carried.
 */
module Config {
  import opened Css

  datatype Props = Props(
    visible: bool,
    mask: bool,
    closable: bool,
    closeIcon: Node,
    destroyOnClose: bool,
    footer: Node,
    content: Node,
    children: Node,
    cancelText: string,
    okText: string,
    left: Option<Length>,     // optional; no default
    top: Length,              // always set: it has a default
    centered: bool,
    draggable: bool,
    hasOnCancel: bool,        // whether an onCancel callback was passed
    hasOnOk: bool             // whether an onOk callback was passed
  )

  /** The default props, for a consumer that passes only `visible`. */
  function DefaultProps(visible: bool): Props {
    Props(
      visible := visible,
      mask := true,
      closable := true,
      closeIcon := Undefined,
      destroyOnClose := true,
      footer := Undefined,
      content := Undefined,
      children := Undefined,
      cancelText := "取消",
      okText := "确认",
      left := None,
      top := Num(200.0),
      centered := true,
      draggable := true,
      hasOnCancel := false,
      hasOnOk := false)
  }
}
