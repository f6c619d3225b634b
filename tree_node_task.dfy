/** The publish tree's node for one task and the lifecycle calls it forwards
    to that task (python/tk_multi_publish2/publish_tree_widget/tree_node_task.py). */
module TaskTree {

  datatype CheckState = Checked | Unchecked | PartiallyChecked

  /** The status icons of a node's embedded widget. */
  datatype Status =
    | NoStatus
    | Validation | ValidationStandalone | ValidationError
    | Publish | PublishError
    | Finalize | FinalizeError

  datatype Plugin = Plugin(name: string, icon: string)

  /** What one call into the task did: it returned a value of the given
      truthiness, or it raised an exception with the given message. */
  datatype TaskOutcome = Returned(truthy: bool) | Raised(message: string)

  /** What a lifecycle call of the node does for its caller: return a value of
      the given truthiness, or let the task's exception propagate. */
  datatype CallResult = Completed(ok: bool) | Propagated(message: string)

  const UnknownValidationError := "Unknown validation error"

  /** A publish task, owned outside the tree. */
  class Task {
    var checked: bool
    var enabled: bool
    const plugin: Plugin

    constructor (plugin: Plugin, checked: bool, enabled: bool)
      ensures this.plugin == plugin && this.checked == checked && this.enabled == enabled
    {
      this.plugin := plugin;
      this.checked := checked;
      this.enabled := enabled;
    }
  }

  /** The embedded widget that draws a node: its checkbox and status icon. */
  class NodeWidget {
    var checkbox: CheckState
    var checkboxEnabled: bool
    var status: Status
    var message: string

    constructor ()
      ensures checkbox == Unchecked && checkboxEnabled && status == NoStatus && message == ""
    {
      checkbox := Unchecked;
      checkboxEnabled := true;
      status := NoStatus;
      message := "";
    }
  }

  /** The checkbox state that mirrors a task's checked flag. */
  function CheckStateFor(checked: bool): (s: CheckState)
    ensures s == Checked <==> checked
    ensures s == Unchecked <==> !checked
  {
    if checked then Checked else Unchecked
  }

  /** A node's visible state: the checkbox data of the tree item and the
      embedded widget's checkbox, enabledness, status and message. */
  datatype NodeView = NodeView(checkRole: CheckState, checkbox: CheckState, checkboxEnabled: bool,
                               status: Status, message: string)

  /** The visible state after update() has pulled a task's flags. */
  function Pulled(v: NodeView, checked: bool, enabled: bool): (r: NodeView)
    ensures r.checkRole == r.checkbox == CheckStateFor(checked)
    ensures r.checkboxEnabled == enabled
    ensures r.status == v.status && r.message == v.message
  {
    v.(checkRole := CheckStateFor(checked), checkbox := CheckStateFor(checked), checkboxEnabled := enabled)
  }

  /** Pulling the same task state twice shows the same as pulling it once. */
  lemma PullIsIdempotent(v: NodeView, checked: bool, enabled: bool)
    ensures Pulled(Pulled(v, checked, enabled), checked, enabled) == Pulled(v, checked, enabled)
  {
  }

  /** The tree item for one publish task. Its ancestors are given by their
      embedded widgets, nearest parent first. TreeNodeBase, which holds the
      node's check data and parent links, is not part of this model; its
      `enabled` is taken to be "the check data is not Unchecked". */
  class TreeNodeTask {
    const task: Task
    const widget: NodeWidget
    const ancestors: seq<NodeWidget>
    var checkRole: CheckState

    /** Whether the node takes part in validate, publish and finalize. */
    predicate Enabled()
      reads this
    {
      checkRole != Unchecked
    }

    ghost function View(): NodeView
      reads this, widget
    {
      NodeView(checkRole, widget.checkbox, widget.checkboxEnabled, widget.status, widget.message)
    }

    /** The node is built and then pulls its state from the task. */
    constructor (task: Task, widget: NodeWidget, ancestors: seq<NodeWidget>)
      requires widget !in ancestors
      modifies widget
      ensures this.task == task && this.widget == widget && this.ancestors == ancestors
      ensures Enabled() == task.checked
      ensures View() == Pulled(old(NodeView(Unchecked, widget.checkbox, widget.checkboxEnabled,
                                            widget.status, widget.message)), task.checked, task.enabled)
    {
      this.task := task;
      this.widget := widget;
      this.ancestors := ancestors;
      this.checkRole := Unchecked;
      new;
      Update();
    }

    /** update(): pull the checked and enabled flags from the task. */
    method Update()
      modifies this`checkRole, widget
      ensures View() == Pulled(old(View()), task.checked, task.enabled)
    {
      var state := if task.checked then Checked else Unchecked;
      checkRole := state;
      widget.checkbox := state;
      widget.checkboxEnabled := task.enabled;
    }

    /** create_summary(): the plugin's name for an enabled node, nothing for
        a disabled one. */
    function CreateSummary(): (summary: seq<string>)
      reads this
      ensures |summary| <= 1
      ensures summary != [] <==> Enabled()
      ensures forall s | s in summary :: s == task.plugin.name
    {
      if Enabled() then [task.plugin.name] else []
    }

    /** Shows a status on this node and on every ancestor. */
    method SetStatusUpwards(status: Status, message: string)
      requires widget !in ancestors
      modifies widget, ancestors
      ensures widget.status == status && widget.message == message
      ensures widget.checkbox == old(widget.checkbox) && widget.checkboxEnabled == old(widget.checkboxEnabled)
      ensures forall a | a in ancestors :: a.status == status && a.message == message
      ensures forall a | a in ancestors :: a.checkbox == old(a.checkbox) && a.checkboxEnabled == old(a.checkboxEnabled)
    {
      widget.status, widget.message := status, message;
      var i := 0;
      while i < |ancestors|
        invariant 0 <= i <= |ancestors|
        invariant widget.status == status && widget.message == message
        invariant widget.checkbox == old(widget.checkbox) && widget.checkboxEnabled == old(widget.checkboxEnabled)
        invariant forall a | a in ancestors[..i] :: a.status == status && a.message == message
        invariant forall a | a in ancestors :: a.checkbox == old(a.checkbox) && a.checkboxEnabled == old(a.checkboxEnabled)
      {
        ancestors[i].status, ancestors[i].message := status, message;
        i := i + 1;
      }
    }

    /** validate(standalone): a disabled node succeeds without running the
        task; a task failure, logical or by exception, is reported on the node
        and its ancestors and never propagates. */
    method Validate(standalone: bool, outcome: TaskOutcome) returns (r: bool)
      requires widget !in ancestors
      modifies widget, ancestors
      ensures !Enabled() ==> r && unchanged(widget) && forall a | a in ancestors :: unchanged(a)
      ensures Enabled() && outcome.Returned? && outcome.truthy ==>
        r && widget.status == (if standalone then ValidationStandalone else Validation)
        && widget.message == "" && forall a | a in ancestors :: unchanged(a)
      ensures Enabled() && outcome.Returned? && !outcome.truthy ==>
        !r && widget.status == ValidationError && widget.message == UnknownValidationError
        && forall a | a in ancestors :: a.status == ValidationError && a.message == UnknownValidationError
      ensures Enabled() && outcome.Raised? ==>
        !r && widget.status == ValidationError && widget.message == outcome.message
        && forall a | a in ancestors :: a.status == ValidationError && a.message == outcome.message
      ensures widget.checkbox == old(widget.checkbox) && widget.checkboxEnabled == old(widget.checkboxEnabled)
      ensures forall a | a in ancestors :: a.checkbox == old(a.checkbox) && a.checkboxEnabled == old(a.checkboxEnabled)
    {
      if !Enabled() {
        return true;
      }
      match outcome
      case Raised(message) =>
        SetStatusUpwards(ValidationError, message);
        r := false;
      case Returned(truthy) =>
        if truthy {
          widget.status, widget.message := if standalone then ValidationStandalone else Validation, "";
        } else {
          SetStatusUpwards(ValidationError, UnknownValidationError);
        }
        r := truthy;
    }

    /** publish() and finalize(): success shows `done`; an exception shows
        `failed` with its message on the node and its ancestors and is then
        raised again to the caller. */
    method RunFatal(outcome: TaskOutcome, done: Status, failed: Status) returns (r: CallResult)
      requires widget !in ancestors
      modifies widget, ancestors
      ensures !Enabled() ==> r == Completed(true) && unchanged(widget) && forall a | a in ancestors :: unchanged(a)
      ensures Enabled() && outcome.Returned? ==>
        r == Completed(true) && widget.status == done && widget.message == ""
        && forall a | a in ancestors :: unchanged(a)
      ensures Enabled() && outcome.Raised? ==>
        r == Propagated(outcome.message) && widget.status == failed && widget.message == outcome.message
        && forall a | a in ancestors :: a.status == failed && a.message == outcome.message
      ensures widget.checkbox == old(widget.checkbox) && widget.checkboxEnabled == old(widget.checkboxEnabled)
      ensures forall a | a in ancestors :: a.checkbox == old(a.checkbox) && a.checkboxEnabled == old(a.checkboxEnabled)
    {
      if !Enabled() {
        return Completed(true);
      }
      match outcome
      case Raised(message) =>
        SetStatusUpwards(failed, message);
        r := Propagated(message);
      case Returned(_) =>
        widget.status, widget.message := done, "";
        r := Completed(true);
    }

    method Publish(outcome: TaskOutcome) returns (r: CallResult)
      requires widget !in ancestors
      modifies widget, ancestors
      ensures !Enabled() ==> r == Completed(true) && unchanged(widget) && forall a | a in ancestors :: unchanged(a)
      ensures Enabled() && outcome.Returned? ==>
        r == Completed(true) && widget.status == Status.Publish && widget.message == ""
        && forall a | a in ancestors :: unchanged(a)
      ensures Enabled() && outcome.Raised? ==>
        r == Propagated(outcome.message) && widget.status == PublishError && widget.message == outcome.message
        && forall a | a in ancestors :: a.status == PublishError && a.message == outcome.message
      ensures widget.checkbox == old(widget.checkbox) && widget.checkboxEnabled == old(widget.checkboxEnabled)
      ensures forall a | a in ancestors :: a.checkbox == old(a.checkbox) && a.checkboxEnabled == old(a.checkboxEnabled)
    {
      r := RunFatal(outcome, Status.Publish, PublishError);
    }

    method Finalize(outcome: TaskOutcome) returns (r: CallResult)
      requires widget !in ancestors
      modifies widget, ancestors
      ensures !Enabled() ==> r == Completed(true) && unchanged(widget) && forall a | a in ancestors :: unchanged(a)
      ensures Enabled() && outcome.Returned? ==>
        r == Completed(true) && widget.status == Status.Finalize && widget.message == ""
        && forall a | a in ancestors :: unchanged(a)
      ensures Enabled() && outcome.Raised? ==>
        r == Propagated(outcome.message) && widget.status == FinalizeError && widget.message == outcome.message
        && forall a | a in ancestors :: a.status == FinalizeError && a.message == outcome.message
      ensures widget.checkbox == old(widget.checkbox) && widget.checkboxEnabled == old(widget.checkboxEnabled)
      ensures forall a | a in ancestors :: a.checkbox == old(a.checkbox) && a.checkboxEnabled == old(a.checkboxEnabled)
    {
      r := RunFatal(outcome, Status.Finalize, FinalizeError);
    }

    /** set_check_state(state, apply_to_all_plugins): either every node of
        the tree whose task has this node's plugin, or this node alone. */
    method SetCheckState(state: CheckState, applyToAllPlugins: bool, tree: PublishTree)
      requires this in tree.nodes
      modifies tree.nodes
      ensures applyToAllPlugins ==>
        forall n | n in tree.nodes ::
          n.checkRole == (if n.task.plugin == task.plugin then state else old(n.checkRole))
      ensures !applyToAllPlugins ==>
        checkRole == state && forall n | n in tree.nodes && n != this :: n.checkRole == old(n.checkRole)
      ensures forall n | n in tree.nodes ::
        n.Enabled() == if n.task.plugin == task.plugin && (applyToAllPlugins || n == this)
                       then state != Unchecked else old(n.Enabled())
    {
      if applyToAllPlugins {
        tree.SetCheckStateForAllPlugins(task.plugin, state);
      } else {
        checkRole := state;
      }
    }
  }

  /** The tree widget, reduced to its task nodes. */
  class PublishTree {
    const nodes: seq<TreeNodeTask>

    constructor (nodes: seq<TreeNodeTask>)
      ensures this.nodes == nodes
    {
      this.nodes := nodes;
    }

    method SetCheckStateForAllPlugins(plugin: Plugin, state: CheckState)
      modifies nodes
      ensures forall n | n in nodes :: n.checkRole == (if n.task.plugin == plugin then state else old(n.checkRole))
      ensures forall n | n in nodes :: n.Enabled() == if n.task.plugin == plugin then state != Unchecked else old(n.Enabled())
    {
      var i := 0;
      while i < |nodes|
        invariant 0 <= i <= |nodes|
        invariant forall n | n in nodes[..i] && n.task.plugin == plugin :: n.checkRole == state
        invariant forall n | n in nodes && n !in nodes[..i] :: n.checkRole == old(n.checkRole)
        invariant forall n | n in nodes && n.task.plugin != plugin :: n.checkRole == old(n.checkRole)
      {
        if nodes[i].task.plugin == plugin {
          nodes[i].checkRole := state;
        }
        assert nodes[..i + 1] == nodes[..i] + [nodes[i]];
        i := i + 1;
      }
      assert nodes[..i] == nodes;
    }
  }

  /** Running update() twice on an unchanged task leaves what one run shows. */
  method UpdateTwice(node: TreeNodeTask)
    modifies node, node.widget
    ensures node.View() == Pulled(old(node.View()), node.task.checked, node.task.enabled)
  {
    node.Update();
    node.Update();
    PullIsIdempotent(old(node.View()), node.task.checked, node.task.enabled);
  }
}
